/**
 Monotone replay of rights-status history at the promotion boundary: the occurrence map, the ancestry
 worklist, and the acceptance relation between two records.
 */
module StatusMonotonicity {
  import opened Wrappers
  import opened Counting

  /** (observation id, observation digest, chain digest) */
  type Anchor = (string, string, string)

  datatype Observation = Observation(id: string, sha: string, predecessorHeads: seq<Anchor>, body: string)

  datatype Occurrence = Occurrence(observation: Observation, document: Bytes)

  datatype Closure = Closure(subject: string, chains: seq<seq<Occurrence>>, targets: seq<Anchor>)

  /** The canonical serialisation and the chain digest of an observation, as any two functions. */
  datatype Codec = Codec(document: Observation -> Bytes, chainSha: Observation -> string)

  /** The serialisation names its observation: the one property of it that transitivity needs. */
  ghost predicate Faithful(codec: Codec)
  {
    forall x, y | codec.document(x) == codec.document(y) :: x == y
  }

  datatype Verdict = Accepted | SubjectMismatch | ReplayFailed

  // ---------- what the closures say ----------

  function AnchorOf(codec: Codec, o: Observation): Anchor { (o.id, o.sha, codec.chainSha(o)) }

  function Items(chains: seq<seq<Occurrence>>): seq<Occurrence>
  {
    if chains == [] then [] else Items(chains[..|chains| - 1]) + chains[|chains| - 1]
  }

  function Targets(c: Closure): set<Anchor> { set t | t in c.targets }

  function Heads(o: Observation): set<Anchor> { set h | h in o.predecessorHeads }

  /** Every document is canonical, and no anchor names two documents. */
  predicate Readable(codec: Codec, items: seq<Occurrence>)
  {
    && (forall i | 0 <= i < |items| :: items[i].document == codec.document(items[i].observation))
    && (forall i, j | 0 <= i < j < |items| ::
          AnchorOf(codec, items[i].observation) == AnchorOf(codec, items[j].observation) ==>
            items[i].document == items[j].document)
  }

  function OccurrenceMap(codec: Codec, items: seq<Occurrence>): map<Anchor, Bytes>
  {
    if items == [] then map[]
    else
      var last := items[|items| - 1];
      OccurrenceMap(codec, items[..|items| - 1])[AnchorOf(codec, last.observation) := last.document]
  }

  function EdgeMap(codec: Codec, items: seq<Occurrence>): map<Anchor, set<Anchor>>
  {
    if items == [] then map[]
    else
      var last := items[|items| - 1];
      EdgeMap(codec, items[..|items| - 1])[AnchorOf(codec, last.observation) := Heads(last.observation)]
  }

  function Predecessors(edges: map<Anchor, set<Anchor>>, a: Anchor): set<Anchor>
  {
    if a in edges then edges[a] else {}
  }

  predicate IsPath(edges: map<Anchor, set<Anchor>>, path: seq<Anchor>)
  {
    path != [] && (|path| > 1 ==> path[1] in Predecessors(edges, path[0]) && IsPath(edges, path[1..]))
  }

  ghost predicate Reachable(edges: map<Anchor, set<Anchor>>, from: set<Anchor>, a: Anchor)
  {
    exists path | IsPath(edges, path) :: path[0] in from && path[|path| - 1] == a
  }

  predicate Retains(prior: map<Anchor, Bytes>, final: map<Anchor, Bytes>)
  {
    forall a | a in prior :: a in final && final[a] == prior[a]
  }

  /** The relation the boundary decides: `final` continues the history of `prior`. */
  ghost predicate Continues(codec: Codec, prior: Closure, final: Closure)
  {
    var before, after := Items(prior.chains), Items(final.chains);
    && prior.subject == final.subject
    && Readable(codec, before) && Readable(codec, after)
    && Retains(OccurrenceMap(codec, before), OccurrenceMap(codec, after))
    && forall t | t in Targets(prior) :: Reachable(EdgeMap(codec, after), Targets(final), t)
  }

  // ---------- lemmas about the maps ----------

  lemma {:induction false} OccurrenceMapKeys(codec: Codec, items: seq<Occurrence>)
    ensures OccurrenceMap(codec, items).Keys == EdgeMap(codec, items).Keys
            == set i | 0 <= i < |items| :: AnchorOf(codec, items[i].observation)
    decreases |items|
  {
    if items != [] {
      var init := items[..|items| - 1];
      OccurrenceMapKeys(codec, init);
      var keys := set i | 0 <= i < |init| :: AnchorOf(codec, init[i].observation);
      assert (set i | 0 <= i < |items| :: AnchorOf(codec, items[i].observation))
          == keys + {AnchorOf(codec, items[|items| - 1].observation)} by {
        forall i | 0 <= i < |init| ensures items[i] == init[i] {}
      }
    }
  }

  /** Both maps speak of one occurrence of the anchor: the last. */
  lemma {:induction false} LastOccurrence(codec: Codec, items: seq<Occurrence>, a: Anchor) returns (i: nat)
    requires a in OccurrenceMap(codec, items)
    ensures i < |items| && AnchorOf(codec, items[i].observation) == a
    ensures OccurrenceMap(codec, items)[a] == items[i].document
    ensures a in EdgeMap(codec, items) && EdgeMap(codec, items)[a] == Heads(items[i].observation)
    decreases |items|
  {
    if AnchorOf(codec, items[|items| - 1].observation) == a {
      i := |items| - 1;
    } else {
      i := LastOccurrence(codec, items[..|items| - 1], a);
    }
  }

  lemma {:induction false} ReadableMap(codec: Codec, items: seq<Occurrence>, i: nat)
    requires Readable(codec, items) && i < |items|
    ensures var a := AnchorOf(codec, items[i].observation);
            a in OccurrenceMap(codec, items) && OccurrenceMap(codec, items)[a] == items[i].document
    decreases |items|
  {
    var last := |items| - 1;
    if i < last {
      var init := items[..last];
      assert Readable(codec, init);
      ReadableMap(codec, init, i);
    }
  }

  // ---------- the occurrence map, as the boundary builds it ----------

  lemma ReadOneMore(codec: Codec, seen: seq<Occurrence>, item: Occurrence)
    requires Readable(codec, seen)
    ensures var anchor, result := AnchorOf(codec, item.observation), OccurrenceMap(codec, seen);
            Readable(codec, seen + [item]) <==>
              && item.document == codec.document(item.observation)
              && (anchor in result ==> result[anchor] == item.document)
    ensures OccurrenceMap(codec, seen + [item])
            == OccurrenceMap(codec, seen)[AnchorOf(codec, item.observation) := item.document]
  {
    var more, anchor, result := seen + [item], AnchorOf(codec, item.observation), OccurrenceMap(codec, seen);
    assert more[|seen|] == item && more[..|more| - 1] == seen;
    if anchor in result {
      var k := LastOccurrence(codec, seen, anchor);
      assert more[k] == seen[k];
    }
    forall k | 0 <= k < |seen| && AnchorOf(codec, seen[k].observation) == anchor
      ensures anchor in result && seen[k].document == result[anchor]
    {
      ReadableMap(codec, seen, k);
    }
  }

  /** One chain of the closure, read on top of the occurrences already seen. */
  method ReadChain(codec: Codec, chain: seq<Occurrence>, ghost before: seq<Occurrence>, known: map<Anchor, Bytes>)
    returns (r: Result<map<Anchor, Bytes>, Verdict>)
    requires Readable(codec, before) && known == OccurrenceMap(codec, before)
    ensures r.Success? <==> Readable(codec, before + chain)
    ensures r.Success? ==> r.value == OccurrenceMap(codec, before + chain)
    ensures r.Failure? ==> r.error == ReplayFailed
  {
    var result := known;
    assert before + chain[..0] == before;
    for i := 0 to |chain|
      invariant Readable(codec, before + chain[..i]) && result == OccurrenceMap(codec, before + chain[..i])
    {
      var item := chain[i];
      ReadOneMore(codec, before + chain[..i], item);
      assert before + chain[..i + 1] == before + chain[..i] + [item];
      var anchor := AnchorOf(codec, item.observation);
      if item.document != codec.document(item.observation) || (anchor in result && result[anchor] != item.document) {
        assert before + chain[..i + 1] <= before + chain;
        PrefixUnreadable(codec, before + chain[..i + 1], before + chain);
        return Failure(ReplayFailed);
      }
      result := result[anchor := item.document];
    }
    assert chain[..|chain|] == chain;
    return Success(result);
  }

  method ObservationOccurrenceMap(codec: Codec, closure: Closure) returns (r: Result<map<Anchor, Bytes>, Verdict>)
    ensures r.Success? <==> Readable(codec, Items(closure.chains))
    ensures r.Success? ==> r.value == OccurrenceMap(codec, Items(closure.chains))
    ensures r.Failure? ==> r.error == ReplayFailed
  {
    var result: map<Anchor, Bytes> := map[];
    for c := 0 to |closure.chains|
      invariant var seen := Items(closure.chains[..c]); Readable(codec, seen) && result == OccurrenceMap(codec, seen)
    {
      ItemsOneMore(closure.chains, c);
      var more := ReadChain(codec, closure.chains[c], Items(closure.chains[..c]), result);
      if more.Failure? {
        PrefixUnreadable(codec, Items(closure.chains[..c + 1]), Items(closure.chains));
        return more;
      }
      result := more.value;
    }
    assert closure.chains[..|closure.chains|] == closure.chains;
    return Success(result);
  }

  lemma {:induction false} ItemsOneMore(chains: seq<seq<Occurrence>>, c: nat)
    requires c < |chains|
    ensures Items(chains[..c + 1]) == Items(chains[..c]) + chains[c]
    ensures Items(chains[..c + 1]) <= Items(chains)
    decreases |chains|
  {
    var last := |chains| - 1;
    assert chains[..c + 1][..c] == chains[..c];
    if c == last {
      assert chains[..c + 1] == chains;
    } else {
      assert chains[..last][..c + 1] == chains[..c + 1];
      ItemsOneMore(chains[..last], c);
    }
  }

  lemma PrefixUnreadable(codec: Codec, prefix: seq<Occurrence>, items: seq<Occurrence>)
    requires prefix <= items && !Readable(codec, prefix)
    ensures !Readable(codec, items)
  {
    if i :| 0 <= i < |prefix| && prefix[i].document != codec.document(prefix[i].observation) {
      assert items[i] == prefix[i];
    } else {
      var i, j :| 0 <= i < j < |prefix|
                  && AnchorOf(codec, prefix[i].observation) == AnchorOf(codec, prefix[j].observation)
                  && prefix[i].document != prefix[j].document;
      assert items[i] == prefix[i] && items[j] == prefix[j];
    }
  }

  // ---------- the ancestry worklist ----------

  function AllAnchors(edges: map<Anchor, set<Anchor>>, from: set<Anchor>): set<Anchor>
  {
    from + set a, p | a in edges && p in edges[a] :: p
  }

  lemma ExtendPath(edges: map<Anchor, set<Anchor>>, from: set<Anchor>, a: Anchor, p: Anchor)
    requires Reachable(edges, from, a) && p in Predecessors(edges, a)
    ensures Reachable(edges, from, p)
  {
    var path :| IsPath(edges, path) && path[0] in from && path[|path| - 1] == a;
    AppendToPath(edges, path, p);
    var longer := path + [p];
    assert longer[0] in from && longer[|longer| - 1] == p;
  }

  lemma {:induction false} AppendToPath(edges: map<Anchor, set<Anchor>>, path: seq<Anchor>, p: Anchor)
    requires IsPath(edges, path) && p in Predecessors(edges, path[|path| - 1])
    ensures IsPath(edges, path + [p])
    decreases |path|
  {
    if |path| == 1 {
      assert (path + [p])[1..] == [p];
    } else {
      AppendToPath(edges, path[1..], p);
      assert (path + [p])[1..] == path[1..] + [p];
    }
  }

  lemma StartIsReachable(edges: map<Anchor, set<Anchor>>, from: set<Anchor>, a: Anchor)
    requires a in from
    ensures Reachable(edges, from, a)
  {
    assert IsPath(edges, [a]);
  }

  /** A set that holds the start and is closed under predecessors holds everything reachable. */
  lemma {:induction false} ClosedHoldsPath(edges: map<Anchor, set<Anchor>>, closed: set<Anchor>, path: seq<Anchor>)
    requires IsPath(edges, path) && path[0] in closed
    requires forall a | a in closed :: Predecessors(edges, a) <= closed
    ensures path[|path| - 1] in closed
    decreases |path|
  {
    if |path| > 1 {
      assert path[1] in Predecessors(edges, path[0]);
      ClosedHoldsPath(edges, closed, path[1..]);
    }
  }

  lemma FewerLeft(universe: set<Anchor>, before: set<Anchor>, after: set<Anchor>)
    requires before < after <= universe
    ensures |universe - after| < |universe - before|
  {
    var a :| a in after && a !in before;
    assert universe - after <= (universe - before) - {a};
    SubsetSize(universe - after, (universe - before) - {a});
  }

  method ListOf(anchors: set<Anchor>) returns (list: seq<Anchor>)
    ensures forall a :: a in list <==> a in anchors
  {
    list := [];
    var unlisted := anchors;
    while unlisted != {}
      invariant unlisted <= anchors && forall a :: a in list <==> a in anchors - unlisted
    {
      var a :| a in unlisted;
      list, unlisted := list + [a], unlisted - {a};
    }
  }

  /** One turn of the worklist: the unseen predecessors join both the ancestry and the frontier. */
  method AddPredecessors(predecessors: set<Anchor>, ancestry: set<Anchor>, frontier: seq<Anchor>)
    returns (grown: set<Anchor>, longer: seq<Anchor>)
    ensures grown == ancestry + predecessors
    ensures forall a :: a in longer <==> a in frontier || a in predecessors - ancestry
    ensures grown == ancestry ==> longer == frontier
  {
    grown, longer := ancestry, frontier;
    var pending := predecessors;
    while pending != {}
      invariant pending <= predecessors
      invariant grown == ancestry + (predecessors - pending)
      invariant forall a :: a in longer <==> a in frontier || a in predecessors - pending - ancestry
      invariant grown == ancestry ==> longer == frontier
    {
      var predecessor :| predecessor in pending;
      if predecessor !in grown {
        grown, longer := grown + {predecessor}, longer + [predecessor];
      }
      pending := pending - {predecessor};
    }
  }

  /** What the worklist has reached is reachable, and only frontier anchors still have work to do. */
  ghost predicate Exploring(edges: map<Anchor, set<Anchor>>, from: set<Anchor>, ancestry: set<Anchor>, frontier: seq<Anchor>)
  {
    && from <= ancestry <= AllAnchors(edges, from)
    && (forall a | a in frontier :: a in ancestry)
    && (forall a | a in ancestry :: Reachable(edges, from, a))
    && (forall a | a in ancestry && a !in frontier :: Predecessors(edges, a) <= ancestry)
  }

  ghost function Left(edges: map<Anchor, set<Anchor>>, from: set<Anchor>, ancestry: set<Anchor>): nat
  {
    |AllAnchors(edges, from) - ancestry|
  }

  lemma ExploringStarts(edges: map<Anchor, set<Anchor>>, from: set<Anchor>, frontier: seq<Anchor>)
    requires forall a :: a in frontier <==> a in from
    ensures Exploring(edges, from, from, frontier)
  {
    forall a | a in from ensures Reachable(edges, from, a) { StartIsReachable(edges, from, a); }
  }

  /** A turn keeps the invariant, and either reaches something new or only shortens the frontier. */
  lemma TurnKeepsExploring(edges: map<Anchor, set<Anchor>>, from: set<Anchor>, current: Anchor,
                           ancestry: set<Anchor>, frontier: seq<Anchor>, grown: set<Anchor>, longer: seq<Anchor>)
    requires Exploring(edges, from, ancestry, frontier + [current])
    requires grown == ancestry + Predecessors(edges, current)
    requires forall a :: a in longer <==> a in frontier || a in Predecessors(edges, current) - ancestry
    requires grown == ancestry ==> longer == frontier
    ensures Exploring(edges, from, grown, longer)
    ensures Left(edges, from, grown) < Left(edges, from, ancestry)
            || (grown == ancestry && |longer| < |frontier + [current]|)
  {
    assert current in frontier + [current];
    forall p | p in Predecessors(edges, current) ensures Reachable(edges, from, p) {
      ExtendPath(edges, from, current, p);
    }
    forall a | a in grown && a !in longer ensures Predecessors(edges, a) <= grown {
      assert a !in frontier && a in ancestry;
      if a != current { assert a !in frontier + [current]; }
    }
    if grown != ancestry { FewerLeft(AllAnchors(edges, from), ancestry, grown); }
  }

  ghost predicate ExactlyReachable(edges: map<Anchor, set<Anchor>>, from: set<Anchor>, ancestry: set<Anchor>)
  {
    forall a :: a in ancestry <==> Reachable(edges, from, a)
  }

  lemma FinishedIsExact(edges: map<Anchor, set<Anchor>>, from: set<Anchor>, ancestry: set<Anchor>)
    requires Exploring(edges, from, ancestry, [])
    ensures ExactlyReachable(edges, from, ancestry)
  {
    forall a | Reachable(edges, from, a) ensures a in ancestry {
      var path :| IsPath(edges, path) && path[0] in from && path[|path| - 1] == a;
      ClosedHoldsPath(edges, ancestry, path);
    }
  }

  method TakeTurn(edges: map<Anchor, set<Anchor>>, ghost from: set<Anchor>, ancestry: set<Anchor>, frontier: seq<Anchor>)
    returns (grown: set<Anchor>, longer: seq<Anchor>)
    requires frontier != [] && Exploring(edges, from, ancestry, frontier)
    ensures Exploring(edges, from, grown, longer)
    ensures Left(edges, from, grown) < Left(edges, from, ancestry)
            || (Left(edges, from, grown) == Left(edges, from, ancestry) && |longer| < |frontier|)
  {
    var current := frontier[|frontier| - 1];
    var rest := frontier[..|frontier| - 1];
    assert frontier == rest + [current];
    grown, longer := AddPredecessors(Predecessors(edges, current), ancestry, rest);
    TurnKeepsExploring(edges, from, current, ancestry, rest, grown, longer);
  }

  /** Terminates on every finite graph, cyclic or not, with exactly the anchors reachable from `from`. */
  method CompleteAncestry(edges: map<Anchor, set<Anchor>>, from: set<Anchor>) returns (ancestry: set<Anchor>)
    ensures ExactlyReachable(edges, from, ancestry)
  {
    ancestry := from;
    var frontier := ListOf(from);
    ExploringStarts(edges, from, frontier);
    while frontier != []
      invariant Exploring(edges, from, ancestry, frontier)
      decreases Left(edges, from, ancestry), |frontier|
    {
      ancestry, frontier := TakeTurn(edges, from, ancestry, frontier);
    }
    FinishedIsExact(edges, from, ancestry);
  }

  // ---------- the verifier ----------

  method PredecessorAnchors(codec: Codec, closure: Closure) returns (edges: map<Anchor, set<Anchor>>)
    ensures edges == EdgeMap(codec, Items(closure.chains))
  {
    edges := map[];
    ghost var seen: seq<Occurrence> := [];
    for c := 0 to |closure.chains|
      invariant seen == Items(closure.chains[..c]) && edges == EdgeMap(codec, seen)
    {
      var chain := closure.chains[c];
      assert closure.chains[..c + 1][..c] == closure.chains[..c];
      ghost var before := seen;
      for i := 0 to |chain|
        invariant seen == before + chain[..i] && edges == EdgeMap(codec, seen)
      {
        ghost var more := seen + [chain[i]];
        assert more == before + chain[..i + 1] && more[..|more| - 1] == seen;
        edges := edges[AnchorOf(codec, chain[i].observation) := Heads(chain[i].observation)];
        seen := more;
      }
      assert chain[..|chain|] == chain;
      assert closure.chains[..c + 1][c] == chain;
    }
    assert closure.chains[..|closure.chains|] == closure.chains;
  }

  method VerifyFinalRecordMonotonicity(codec: Codec, prior: Closure, final: Closure) returns (v: Verdict)
    ensures v.Accepted? <==> Continues(codec, prior, final)
    ensures v.SubjectMismatch? <==> prior.subject != final.subject
  {
    if prior.subject != final.subject {
      return SubjectMismatch;
    }
    var priorMap := ObservationOccurrenceMap(codec, prior);
    if priorMap.Failure? {
      return priorMap.error;
    }
    var finalMap := ObservationOccurrenceMap(codec, final);
    if finalMap.Failure? {
      return finalMap.error;
    }
    if !Retains(priorMap.value, finalMap.value) {
      return ReplayFailed;
    }
    var edges := PredecessorAnchors(codec, final);
    var ancestry := CompleteAncestry(edges, Targets(final));
    if !(Targets(prior) <= ancestry) {
      return ReplayFailed;
    }
    return Accepted;
  }

  // ---------- the relation ----------

  /** A record continues itself exactly when it can be read. */
  lemma ContinuesItself(codec: Codec, c: Closure)
    ensures Continues(codec, c, c) <==> Readable(codec, Items(c.chains))
  {
    forall t | t in Targets(c) ensures Reachable(EdgeMap(codec, Items(c.chains)), Targets(c), t) {
      StartIsReachable(EdgeMap(codec, Items(c.chains)), Targets(c), t);
    }
  }

  /** A retained, byte-identical occurrence keeps its predecessor edges. */
  lemma RetainedEdges(codec: Codec, before: seq<Occurrence>, after: seq<Occurrence>, a: Anchor)
    requires Faithful(codec) && Readable(codec, before) && Readable(codec, after)
    requires Retains(OccurrenceMap(codec, before), OccurrenceMap(codec, after))
    requires a in EdgeMap(codec, before)
    ensures a in EdgeMap(codec, after) && EdgeMap(codec, after)[a] == EdgeMap(codec, before)[a]
  {
    OccurrenceMapKeys(codec, before);
    var i := LastOccurrence(codec, before, a);
    var j := LastOccurrence(codec, after, a);
    assert codec.document(before[i].observation) == codec.document(after[j].observation);
  }

  /** What the earlier graph reaches, the later graph reaches. */
  lemma {:induction false} ReachThrough(codec: Codec, before: seq<Occurrence>, after: seq<Occurrence>, from: set<Anchor>, path: seq<Anchor>)
    requires Faithful(codec) && Readable(codec, before) && Readable(codec, after)
    requires Retains(OccurrenceMap(codec, before), OccurrenceMap(codec, after))
    requires IsPath(EdgeMap(codec, before), path) && Reachable(EdgeMap(codec, after), from, path[0])
    ensures Reachable(EdgeMap(codec, after), from, path[|path| - 1])
    decreases |path|
  {
    if |path| > 1 {
      var edges := EdgeMap(codec, before);
      assert path[1] in Predecessors(edges, path[0]);
      RetainedEdges(codec, before, after, path[0]);
      ExtendPath(EdgeMap(codec, after), from, path[0], path[1]);
      ReachThrough(codec, before, after, from, path[1..]);
    }
  }

  lemma ContinuesTransitively(codec: Codec, a: Closure, b: Closure, c: Closure)
    requires Faithful(codec) && Continues(codec, a, b) && Continues(codec, b, c)
    ensures Continues(codec, a, c)
  {
    var inB, inC := Items(b.chains), Items(c.chains);
    forall t | t in Targets(a) ensures Reachable(EdgeMap(codec, inC), Targets(c), t) {
      var path :| IsPath(EdgeMap(codec, inB), path) && path[0] in Targets(b) && path[|path| - 1] == t;
      ReachThrough(codec, inB, inC, Targets(c), path);
    }
  }

  /** Over a whole chain of accepted records, the last continues the first: no branch is ever dropped. */
  lemma {:induction false} HistoryNeverShrinks(codec: Codec, records: seq<Closure>)
    requires Faithful(codec) && |records| >= 2
    requires forall i | 0 <= i < |records| - 1 :: Continues(codec, records[i], records[i + 1])
    ensures Continues(codec, records[0], records[|records| - 1])
    decreases |records|
  {
    if |records| > 2 {
      var init := records[..|records| - 1];
      forall i | 0 <= i < |init| - 1 ensures Continues(codec, init[i], init[i + 1]) {
        assert init[i] == records[i] && init[i + 1] == records[i + 1];
      }
      HistoryNeverShrinks(codec, init);
      assert Continues(codec, records[|records| - 2], records[|records| - 2 + 1]);
      ContinuesTransitively(codec, records[0], records[|records| - 2], records[|records| - 1]);
    }
  }
}
