/** Identifier sequences, joined texts and timelines, shared by several modules. */
module TextTools {
  predicate Less(a: string, b: string)
  {
    b != "" && (a == "" || a[0] < b[0] || (a[0] == b[0] && Less(a[1..], b[1..])))
  }

  lemma {:induction false} LessIsIrreflexive(a: string)
    ensures !Less(a, a)
    decreases |a|
  {
    if a != "" { LessIsIrreflexive(a[1..]); }
  }

  /** Equal to its own sorted set. */
  predicate Ascending(xs: seq<string>) { forall i, j | 0 <= i < j < |xs| :: Less(xs[i], xs[j]) }

  predicate Unique(xs: seq<string>) { forall i, j | 0 <= i < j < |xs| :: xs[i] != xs[j] }

  lemma AscendingIsUnique(xs: seq<string>)
    requires Ascending(xs)
    ensures Unique(xs)
  {
    forall i, j | 0 <= i < j < |xs| ensures xs[i] != xs[j] { LessIsIrreflexive(xs[i]); }
  }

  function Members(xs: seq<string>): set<string> { set x | x in xs }

  /** The first position of an identifier. */
  function IndexOf(ids: seq<string>, id: string): (i: nat)
    requires id in ids
    ensures i < |ids| && ids[i] == id
  {
    if ids[0] == id then 0 else 1 + IndexOf(ids[1..], id)
  }

  function Join(separator: string, parts: seq<string>): string
  {
    if parts == [] then "" else if |parts| == 1 then parts[0] else parts[0] + separator + Join(separator, parts[1..])
  }

  function Sum(xs: seq<nat>): nat
  {
    if xs == [] then 0 else Sum(xs[..|xs| - 1]) + xs[|xs| - 1]
  }

  lemma {:induction false} SumSplits(xs: seq<nat>, ys: seq<nat>)
    ensures Sum(xs + ys) == Sum(xs) + Sum(ys)
    decreases |ys|
  {
    if ys == [] {
      assert xs + ys == xs;
    } else {
      assert (xs + ys)[..|xs + ys| - 1] == xs + ys[..|ys| - 1];
      SumSplits(xs, ys[..|ys| - 1]);
    }
  }

  /** Contiguous intervals from zero that cover exactly `total`. */
  predicate Timeline(starts: seq<nat>, durations: seq<nat>, total: nat)
  {
    && |starts| == |durations|
    && (forall i | 0 <= i < |starts| :: starts[i] == Sum(durations[..i]))
    && Sum(durations) == total
  }
}
