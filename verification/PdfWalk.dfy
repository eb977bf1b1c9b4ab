/** The bounded walk over a PDF object graph that screens entitlement evidence for active content. */
module PdfWalk {
  import opened Wrappers
  import opened Counting

  /** The identity of an object in memory. */
  type Node = nat

  type IndirectKey = (nat, nat)

  datatype Object =
    | Reference(key: IndirectKey)
    | Mapping(entries: seq<(string, Node)>)
    | Sequence(items: seq<Node>)
    | Leaf

  /** The object behind each identity, the target of each indirect key, and how an object prints. */
  datatype Pdf = Pdf(objectAt: Node -> Object, resolve: IndirectKey -> Option<Node>, text: Node -> string)

  datatype Policy = Policy(activeKeys: set<string>, activeValues: set<string>, maxNodes: nat, maxDepth: nat)

  function EntitlementPolicy(): Policy
  {
    Policy(
      {"/A", "/AA", "/AcroForm", "/AF", "/Annots", "/3D", "/EmbeddedFiles", "/EF", "/JavaScript", "/JS", "/Launch",
       "/Movie", "/Names", "/OpenAction", "/Rendition", "/RichMedia", "/Sound", "/SubmitForm", "/Trans", "/ImportData",
       "/URI", "/GoToR", "/GoToE", "/XFA"},
      {"/Action", "/3D", "/EmbeddedFile", "/FileAttachment", "/Filespec", "/JavaScript", "/Launch", "/Movie",
       "/Rendition", "/RichMedia", "/Screen", "/Sound", "/SubmitForm", "/ImportData", "/URI", "/Widget", "/GoToR",
       "/GoToE"},
      50_000, 64)
  }

  datatype WalkError = LimitExceeded | InvalidObject | ActiveContent

  // ---------- reachability ----------

  predicate Child(pdf: Pdf, parent: Node, child: Node)
  {
    match pdf.objectAt(parent)
    case Reference(key) => pdf.resolve(key) == Some(child)
    case Mapping(entries) => exists i | 0 <= i < |entries| :: entries[i].1 == child
    case Sequence(items) => child in items
    case Leaf => false
  }

  /** `n` is reached from `root` along exactly `steps` references, values and items. */
  ghost predicate ReachedIn(pdf: Pdf, root: Node, n: Node, steps: nat)
    decreases steps
  {
    if steps == 0 then n == root else exists m :: ReachedIn(pdf, root, m, steps - 1) && Child(pdf, m, n)
  }

  ghost predicate Reachable(pdf: Pdf, root: Node, n: Node) { exists steps :: ReachedIn(pdf, root, n, steps) }

  predicate ActiveEntry(pdf: Pdf, policy: Policy, entry: (string, Node))
  {
    entry.0 in policy.activeKeys || pdf.text(entry.1) in policy.activeValues
  }

  /** No active key, and no active value held directly. */
  predicate Passive(pdf: Pdf, policy: Policy, n: Node)
  {
    pdf.objectAt(n).Mapping? ==> forall i | 0 <= i < |pdf.objectAt(n).entries| :: !ActiveEntry(pdf, policy, pdf.objectAt(n).entries[i])
  }

  predicate Resolves(pdf: Pdf, n: Node) { pdf.objectAt(n).Reference? ==> pdf.resolve(pdf.objectAt(n).key).Some? }

  /** Everything reachable is passive, and every reachable reference resolves. */
  ghost predicate Clean(pdf: Pdf, policy: Policy, root: Node)
  {
    forall n | Reachable(pdf, root, n) :: Passive(pdf, policy, n) && Resolves(pdf, n)
  }

  // ---------- counting ----------

  function Values(entries: seq<(string, Node)>): seq<Node>
  {
    seq(|entries|, i requires 0 <= i < |entries| => entries[i].1)
  }

  /** What expanding an object puts on the stack. */
  function Children(pdf: Pdf, n: Node): seq<Node>
  {
    match pdf.objectAt(n)
    case Reference(key) => if pdf.resolve(key).Some? then [pdf.resolve(key).value] else []
    case Mapping(entries) => Values(entries)
    case Sequence(items) => items
    case Leaf => []
  }

  /** The references, values and items that leave these objects. */
  function Edges(pdf: Pdf, nodes: seq<Node>): nat
  {
    if nodes == [] then 0 else Edges(pdf, nodes[..|nodes| - 1]) + |Children(pdf, nodes[|nodes| - 1])|
  }

  lemma {:induction false} EdgesWithout(pdf: Pdf, nodes: seq<Node>, i: nat)
    requires i < |nodes|
    ensures Edges(pdf, nodes) == Edges(pdf, nodes[..i] + nodes[i + 1..]) + |Children(pdf, nodes[i])|
    decreases |nodes|
  {
    var without := nodes[..i] + nodes[i + 1..];
    if i == |nodes| - 1 {
      assert without == nodes[..|nodes| - 1];
    } else {
      EdgesWithout(pdf, nodes[..|nodes| - 1], i);
      assert without[..|without| - 1] == nodes[..|nodes| - 1][..i] + nodes[..|nodes| - 1][i + 1..];
    }
  }

  /** Distinct objects taken from a list have no more edges than the list. */
  lemma {:induction false} EdgesAmong(pdf: Pdf, some: seq<Node>, all: seq<Node>)
    requires Distinct(some) && forall n | n in some :: n in all
    ensures Edges(pdf, some) <= Edges(pdf, all)
    decreases |some|
  {
    if some != [] {
      var init, last := some[..|some| - 1], some[|some| - 1];
      assert last in some;
      var i :| 0 <= i < |all| && all[i] == last;
      var rest := all[..i] + all[i + 1..];
      forall n | n in init ensures n in rest {
        assert n in some && n != last;
        var k :| 0 <= k < |all| && all[k] == n;
        assert if k < i then rest[k] == n else rest[k - 1] == n;
      }
      EdgesWithout(pdf, all, i);
      EdgesAmong(pdf, init, rest);
    }
  }

  // ---------- chains ----------

  /** A chain from the root down to `n` that repeats no object before its end. */
  ghost predicate Chain(pdf: Pdf, root: Node, path: seq<Node>, n: Node, depth: nat)
  {
    && |path| == depth + 1 && path[0] == root && path[depth] == n
    && (forall j, k | 0 <= j < |path| && 0 <= k < |path| && k == j + 1 :: Child(pdf, path[j], path[k]))
    && Distinct(path[..depth])
  }

  ghost predicate Deep(pdf: Pdf, root: Node, depth: nat)
  {
    exists path, n, d: nat | d > depth :: Chain(pdf, root, path, n, d)
  }

  /** Distinct reachable objects with more edges between them than the walk may turn, or a chain deeper than it may go. */
  ghost predicate TooLarge(pdf: Pdf, policy: Policy, root: Node)
  {
    || (exists nodes: seq<Node> ::
          Distinct(nodes) && (forall n | n in nodes :: Reachable(pdf, root, n)) && 1 + Edges(pdf, nodes) > policy.maxNodes)
    || Deep(pdf, root, policy.maxDepth)
  }

  lemma {:induction false} ChainIsReached(pdf: Pdf, root: Node, path: seq<Node>, n: Node, depth: nat, j: nat)
    requires Chain(pdf, root, path, n, depth) && j < |path|
    ensures ReachedIn(pdf, root, path[j], j)
    decreases j
  {
    if j > 0 { ChainIsReached(pdf, root, path, n, depth, j - 1); }
  }

  /** A graph of few objects and edges, cyclic or not, is not too large. `all` lists everything reachable. */
  lemma SmallGraph(pdf: Pdf, policy: Policy, root: Node, all: seq<Node>)
    requires forall n | Reachable(pdf, root, n) :: n in all
    requires |all| <= policy.maxDepth && 1 + Edges(pdf, all) <= policy.maxNodes
    ensures !TooLarge(pdf, policy, root)
  {
    forall nodes: seq<Node> | Distinct(nodes) && forall n | n in nodes :: Reachable(pdf, root, n)
      ensures 1 + Edges(pdf, nodes) <= policy.maxNodes
    {
      EdgesAmong(pdf, nodes, all);
    }
    forall path, n, d: nat | Chain(pdf, root, path, n, d) ensures d <= policy.maxDepth {
      forall j | 0 <= j < d ensures path[..d][j] in all {
        ChainIsReached(pdf, root, path, n, d, j);
        assert Reachable(pdf, root, path[j]);
      }
      DistinctWithin(path[..d], SetOf(all));
      SetOfIsShorter(all);
    }
  }

  function SetOf(nodes: seq<Node>): set<Node> { set x | x in nodes }

  lemma {:induction false} SetOfIsShorter(nodes: seq<Node>)
    ensures |SetOf(nodes)| <= |nodes|
    decreases |nodes|
  {
    if nodes == [] {
      assert SetOf(nodes) == {};
    } else {
      SetOfIsShorter(nodes[1..]);
      assert SetOf(nodes) == {nodes[0]} + SetOf(nodes[1..]);
    }
  }

  lemma LongerChain(pdf: Pdf, root: Node, path: seq<Node>, n: Node, depth: nat, child: Node)
    requires Chain(pdf, root, path, n, depth) && n !in path[..depth] && Child(pdf, n, child)
    ensures Chain(pdf, root, path + [child], child, depth + 1) && (path + [child])[..depth + 1] == path[..depth] + [n]
  {
    assert (path + [child])[..depth + 1] == path == path[..depth] + [n];
  }

  // ---------- the state of the walk ----------

  type Pending = seq<(Node, nat)>

  predicate Queued(pending: Pending, n: Node) { exists i | 0 <= i < |pending| :: pending[i].0 == n }

  /** The walk remembers having expanded this object. */
  predicate Expanded(pdf: Pdf, refs: set<IndirectKey>, direct: set<Node>, n: Node)
  {
    match pdf.objectAt(n)
    case Reference(key) => key in refs
    case Mapping(_) => n in direct
    case Sequence(_) => n in direct
    case Leaf => true
  }

  ghost predicate FromRoot(pdf: Pdf, root: Node, pending: Pending)
  {
    forall i | 0 <= i < |pending| :: ReachedIn(pdf, root, pending[i].0, pending[i].1)
  }

  /** Whatever was expanded was clean, and its children are visited or queued. */
  ghost predicate Frontier(pdf: Pdf, policy: Policy, refs: set<IndirectKey>, direct: set<Node>, visited: set<Node>, pending: Pending)
  {
    && (forall n | n in visited :: Expanded(pdf, refs, direct, n))
    && (forall key | key in refs ::
          pdf.resolve(key).Some? && (pdf.resolve(key).value in visited || Queued(pending, pdf.resolve(key).value)))
    && (forall n | n in direct ::
          Passive(pdf, policy, n) && forall child | Child(pdf, n, child) :: child in visited || Queued(pending, child))
  }

  lemma {:induction false} VisitedHoldsReachable(
    pdf: Pdf, policy: Policy, refs: set<IndirectKey>, direct: set<Node>, visited: set<Node>, root: Node, n: Node, steps: nat)
    requires Frontier(pdf, policy, refs, direct, visited, []) && root in visited && ReachedIn(pdf, root, n, steps)
    ensures n in visited
    decreases steps
  {
    if steps > 0 {
      var m :| ReachedIn(pdf, root, m, steps - 1) && Child(pdf, m, n);
      VisitedHoldsReachable(pdf, policy, refs, direct, visited, root, m, steps - 1);
      assert Expanded(pdf, refs, direct, m);
    }
  }

  lemma FinishedIsClean(
    pdf: Pdf, policy: Policy, refs: set<IndirectKey>, direct: set<Node>, visited: set<Node>, root: Node)
    requires Frontier(pdf, policy, refs, direct, visited, []) && root in visited
    ensures Clean(pdf, policy, root) && forall n | Reachable(pdf, root, n) :: n in visited
  {
    forall n | Reachable(pdf, root, n) ensures n in visited && Passive(pdf, policy, n) && Resolves(pdf, n) {
      var steps :| ReachedIn(pdf, root, n, steps);
      VisitedHoldsReachable(pdf, policy, refs, direct, visited, root, n, steps);
      assert Expanded(pdf, refs, direct, n);
    }
  }

  lemma ChildIsReached(pdf: Pdf, root: Node, parent: Node, child: Node, steps: nat)
    requires ReachedIn(pdf, root, parent, steps) && Child(pdf, parent, child)
    ensures ReachedIn(pdf, root, child, steps + 1)
  {}

  lemma UncleanAt(pdf: Pdf, policy: Policy, root: Node, n: Node, steps: nat)
    requires ReachedIn(pdf, root, n, steps) && !(Passive(pdf, policy, n) && Resolves(pdf, n))
    ensures !Clean(pdf, policy, root)
  {}

  // ---------- one turn ----------

  lemma QueuedSplits(rest: Pending, more: Pending, n: Node)
    ensures Queued(rest + more, n) <==> Queued(rest, n) || Queued(more, n)
  {
    if i :| 0 <= i < |rest| && rest[i].0 == n { assert (rest + more)[i].0 == n; }
    if i :| 0 <= i < |more| && more[i].0 == n { assert (rest + more)[|rest| + i].0 == n; }
  }

  /** Popping an object, remembering it as expanded, and queueing its children keeps the frontier. */
  lemma TurnKeepsFrontier(
    pdf: Pdf, policy: Policy, refs: set<IndirectKey>, direct: set<Node>, visited: set<Node>, rest: Pending,
    current: Node, depth: nat, refs': set<IndirectKey>, direct': set<Node>, more: Pending)
    requires Frontier(pdf, policy, refs, direct, visited, rest + [(current, depth)])
    requires refs <= refs' && direct <= direct' && Expanded(pdf, refs', direct', current)
    requires forall key | key in refs' - refs :: pdf.resolve(key).Some? && Queued(more, pdf.resolve(key).value)
    requires forall n | n in direct' - direct ::
      n == current && Passive(pdf, policy, n) && forall child | Child(pdf, n, child) :: Queued(more, child)
    ensures Frontier(pdf, policy, refs', direct', visited + {current}, rest + more)
  {
    var visited' := visited + {current};
    forall n | n in visited || Queued(rest + [(current, depth)], n) ensures n in visited' || Queued(rest + more, n) {
      QueuedSplits(rest, [(current, depth)], n);
      QueuedSplits(rest, more, n);
    }
    forall n | Queued(more, n) ensures Queued(rest + more, n) { QueuedSplits(rest, more, n); }
    forall n, child | n in direct' && Child(pdf, n, child) ensures child in visited' || Queued(rest + more, child) {
      if n !in direct { assert n in direct' - direct; }
    }
    forall key | key in refs'
      ensures pdf.resolve(key).Some?
      ensures pdf.resolve(key).value in visited' || Queued(rest + more, pdf.resolve(key).value)
    {
      if key !in refs { assert key in refs' - refs; }
    }
  }

  function Deeper(children: seq<Node>, depth: nat): Pending
  {
    seq(|children|, i requires 0 <= i < |children| => (children[i], depth))
  }

  lemma DeeperQueues(children: seq<Node>, depth: nat, n: Node)
    ensures Queued(Deeper(children, depth), n) <==> n in children
  {
    var more := Deeper(children, depth);
    if i :| 0 <= i < |children| && children[i] == n { assert more[i].0 == n; }
  }

  lemma ValuesHold(entries: seq<(string, Node)>, n: Node)
    ensures n in Values(entries) <==> exists i | 0 <= i < |entries| :: entries[i].1 == n
  {
    if i :| 0 <= i < |entries| && entries[i].1 == n { assert Values(entries)[i] == n; }
  }

  /** The children of an object, with the mapping's entries screened on the way. */
  method ScreenEntries(pdf: Pdf, policy: Policy, entries: seq<(string, Node)>) returns (ok: bool, values: seq<Node>)
    ensures ok <==> forall i | 0 <= i < |entries| :: !ActiveEntry(pdf, policy, entries[i])
    ensures ok ==> values == Values(entries)
  {
    values := [];
    for i := 0 to |entries|
      invariant values == Values(entries[..i])
      invariant forall k | 0 <= k < i :: !ActiveEntry(pdf, policy, entries[k])
    {
      if ActiveEntry(pdf, policy, entries[i]) {
        return false, values;
      }
      values := values + [entries[i].1];
    }
    assert entries[..|entries|] == entries;
    return true, values;
  }

  /** Expansion of one object that was not seen before: its children, or the reason to stop. */
  method Expand(pdf: Pdf, policy: Policy, n: Node) returns (r: Result<seq<Node>, WalkError>)
    ensures r.Success? <==> Passive(pdf, policy, n) && Resolves(pdf, n)
    ensures r.Success? ==> r.value == Children(pdf, n) && forall child :: child in r.value <==> Child(pdf, n, child)
    ensures r.Failure? ==> r.error != LimitExceeded
  {
    match pdf.objectAt(n)
    case Reference(key) =>
      if pdf.resolve(key).None? {
        return Failure(InvalidObject);
      }
      return Success([pdf.resolve(key).value]);
    case Mapping(entries) =>
      var ok, values := ScreenEntries(pdf, policy, entries);
      if !ok {
        return Failure(ActiveContent);
      }
      forall child ensures child in values <==> Child(pdf, n, child) { ValuesHold(entries, child); }
      return Success(values);
    case Sequence(items) =>
      return Success(items);
    case Leaf =>
      return Success([]);
  }

  lemma DeeperFromRoot(pdf: Pdf, root: Node, rest: Pending, current: Node, depth: nat, children: seq<Node>)
    requires FromRoot(pdf, root, rest + [(current, depth)]) && forall child | child in children :: Child(pdf, current, child)
    ensures FromRoot(pdf, root, rest + Deeper(children, depth + 1))
  {
    var before, after := rest + [(current, depth)], rest + Deeper(children, depth + 1);
    assert before[|rest|] == (current, depth);
    forall i | 0 <= i < |after| ensures ReachedIn(pdf, root, after[i].0, after[i].1) {
      if i < |rest| {
        assert after[i] == before[i];
      } else {
        assert after[i] == (children[i - |rest|], depth + 1);
        ChildIsReached(pdf, root, current, children[i - |rest|], depth);
      }
    }
  }

  /** Remembering an object as expanded. */
  function Remember(pdf: Pdf, refs: set<IndirectKey>, direct: set<Node>, n: Node): (set<IndirectKey>, set<Node>)
  {
    match pdf.objectAt(n)
    case Reference(key) => (refs + {key}, direct)
    case Mapping(_) => (refs, direct + {n})
    case Sequence(_) => (refs, direct + {n})
    case Leaf => (refs, direct)
  }

  lemma ExpansionKeepsFrontier(
    pdf: Pdf, policy: Policy, refs: set<IndirectKey>, direct: set<Node>, visited: set<Node>, rest: Pending,
    current: Node, depth: nat, children: seq<Node>)
    requires Frontier(pdf, policy, refs, direct, visited, rest + [(current, depth)])
    requires Passive(pdf, policy, current) && Resolves(pdf, current)
    requires forall child :: child in children <==> Child(pdf, current, child)
    ensures var (refs', direct') := Remember(pdf, refs, direct, current);
            Frontier(pdf, policy, refs', direct', visited + {current}, rest + Deeper(children, depth + 1))
  {
    var (refs', direct') := Remember(pdf, refs, direct, current);
    var more := Deeper(children, depth + 1);
    forall child | Child(pdf, current, child) ensures Queued(more, child) { DeeperQueues(children, depth + 1, child); }
    TurnKeepsFrontier(pdf, policy, refs, direct, visited, rest, current, depth, refs', direct', more);
  }

  ghost predicate Within(pdf: Pdf, root: Node, n: Node, depth: nat)
  {
    exists steps | 0 <= steps <= depth :: ReachedIn(pdf, root, n, steps)
  }

  /** How each queued object was reached: along a chain of expanded objects. */
  ghost predicate Chained(pdf: Pdf, root: Node, expanded: seq<Node>, pending: Pending, paths: seq<seq<Node>>)
  {
    && |paths| == |pending|
    && forall i | 0 <= i < |pending| ::
         && Chain(pdf, root, paths[i], pending[i].0, pending[i].1)
         && forall n | n in paths[i][..pending[i].1] :: n in expanded
  }

  function Extended(path: seq<Node>, children: seq<Node>): seq<seq<Node>>
  {
    seq(|children|, i requires 0 <= i < |children| => path + [children[i]])
  }

  lemma PopKeepsChains(pdf: Pdf, root: Node, expanded: seq<Node>, rest: Pending, top: (Node, nat), paths: seq<seq<Node>>)
    requires Chained(pdf, root, expanded, rest + [top], paths)
    ensures Chained(pdf, root, expanded, rest, paths[..|rest|]) && Chain(pdf, root, paths[|rest|], top.0, top.1)
    ensures forall n | n in paths[|rest|][..top.1] :: n in expanded
  {
    assert (rest + [top])[|rest|] == top;
    forall i | 0 <= i < |rest| ensures (rest + [top])[i] == rest[i] {}
  }

  lemma ExpansionKeepsChains(
    pdf: Pdf, root: Node, expanded: seq<Node>, rest: Pending, paths: seq<seq<Node>>, current: Node, depth: nat,
    path: seq<Node>, children: seq<Node>)
    requires Chained(pdf, root, expanded, rest, paths) && Chain(pdf, root, path, current, depth)
    requires (forall n | n in path[..depth] :: n in expanded) && current !in expanded
    requires forall child | child in children :: Child(pdf, current, child)
    ensures Chained(pdf, root, expanded + [current], rest + Deeper(children, depth + 1), paths + Extended(path, children))
  {
    var pending', paths' := rest + Deeper(children, depth + 1), paths + Extended(path, children);
    forall i | 0 <= i < |pending'|
      ensures Chain(pdf, root, paths'[i], pending'[i].0, pending'[i].1)
      ensures forall n | n in paths'[i][..pending'[i].1] :: n in expanded + [current]
    {
      if i < |rest| {
        assert pending'[i] == rest[i] && paths'[i] == paths[i];
      } else {
        var child := children[i - |rest|];
        assert pending'[i] == (child, depth + 1) && paths'[i] == path + [child];
        LongerChain(pdf, root, path, current, depth, child);
      }
    }
  }

  /** Distinct, reachable, and remembered as expanded. */
  ghost predicate ExpandedOnce(pdf: Pdf, root: Node, refs: set<IndirectKey>, direct: set<Node>, expanded: seq<Node>)
  {
    && Distinct(expanded)
    && forall n | n in expanded :: Reachable(pdf, root, n) && Expanded(pdf, refs, direct, n)
  }

  lemma OneMoreExpanded(
    pdf: Pdf, root: Node, refs: set<IndirectKey>, direct: set<Node>, expanded: seq<Node>, n: Node)
    requires ExpandedOnce(pdf, root, refs, direct, expanded) && !Expanded(pdf, refs, direct, n) && Reachable(pdf, root, n)
    ensures n !in expanded
    ensures var (refs', direct') := Remember(pdf, refs, direct, n);
            ExpandedOnce(pdf, root, refs', direct', expanded + [n])
    ensures Edges(pdf, expanded + [n]) == Edges(pdf, expanded) + |Children(pdf, n)|
  {
    assert (expanded + [n])[..|expanded|] == expanded;
  }

  /**
   Within its limits the walk decides exactly whether everything reachable is clean, and it always stops. On a normal
   return at most `maxNodes` objects are reachable, each within `maxDepth` steps. It gives up only where the graph
   itself is too large: distinct reachable objects with too many edges between them, or a chain without repetition that
   is longer than the depth allowed.
   */
  method WalkPdfObjectGraph(pdf: Pdf, policy: Policy, root: Node)
    returns (r: Option<WalkError>, ghost visited: set<Node>)
    ensures r.None? ==> Clean(pdf, policy, root)
    ensures r.None? ==> |visited| <= policy.maxNodes
    ensures r.None? ==> forall n | Reachable(pdf, root, n) :: n in visited && Within(pdf, root, n, policy.maxDepth)
    ensures r.Some? && r.value != LimitExceeded ==> !Clean(pdf, policy, root)
    ensures r == Some(LimitExceeded) ==> TooLarge(pdf, policy, root)
  {
    var pending: Pending := [(root, 0)];
    var refs: set<IndirectKey>, direct: set<Node> := {}, {};
    var nodes: nat := 0;
    visited := {};
    ghost var expanded: seq<Node>, paths: seq<seq<Node>> := [], [[root]];
    assert pending[0].0 == root;
    while pending != []
      invariant nodes <= policy.maxNodes && FromRoot(pdf, root, pending)
      invariant Frontier(pdf, policy, refs, direct, visited, pending)
      invariant root in visited || Queued(pending, root)
      invariant |visited| <= nodes && forall n | n in visited :: Within(pdf, root, n, policy.maxDepth)
      invariant nodes + |pending| == 1 + Edges(pdf, expanded)
      invariant ExpandedOnce(pdf, root, refs, direct, expanded) && Chained(pdf, root, expanded, pending, paths)
      decreases policy.maxNodes - nodes
    {
      var (current, depth) := pending[|pending| - 1];
      var rest := pending[..|pending| - 1];
      assert pending == rest + [(current, depth)];
      QueuedSplits(rest, [(current, depth)], root);
      assert ReachedIn(pdf, root, current, depth) by { assert pending[|pending| - 1] == (current, depth); }
      PopKeepsChains(pdf, root, expanded, rest, (current, depth), paths);
      ghost var path := paths[|rest|];
      nodes := nodes + 1;
      if nodes > policy.maxNodes || depth > policy.maxDepth {
        return Some(LimitExceeded), visited;
      }
      if pdf.objectAt(current).Leaf? || Expanded(pdf, refs, direct, current) {
        TurnKeepsFrontier(pdf, policy, refs, direct, visited, rest, current, depth, refs, direct, []);
        assert rest + [] == rest;
        pending, paths := rest, paths[..|rest|];
      } else {
        var children := Expand(pdf, policy, current);
        if children.Failure? {
          UncleanAt(pdf, policy, root, current, depth);
          return Some(children.error), visited;
        }
        DeeperFromRoot(pdf, root, rest, current, depth, children.value);
        ExpansionKeepsFrontier(pdf, policy, refs, direct, visited, rest, current, depth, children.value);
        QueuedSplits(rest, Deeper(children.value, depth + 1), root);
        OneMoreExpanded(pdf, root, refs, direct, expanded, current);
        ExpansionKeepsChains(pdf, root, expanded, rest, paths[..|rest|], current, depth, path, children.value);
        var (refs', direct') := Remember(pdf, refs, direct, current);
        refs, direct := refs', direct';
        pending := rest + Deeper(children.value, depth + 1);
        paths, expanded := paths[..|rest|] + Extended(path, children.value), expanded + [current];
      }
      visited := visited + {current};
    }
    FinishedIsClean(pdf, policy, refs, direct, visited, root);
    return None, visited;
  }

  /** On every graph that is not too large the answer is exact. */
  method DecideGraph(pdf: Pdf, policy: Policy, root: Node) returns (ok: bool)
    requires !TooLarge(pdf, policy, root)
    ensures ok <==> Clean(pdf, policy, root)
  {
    var r: Option<WalkError>;
    ghost var visited: set<Node>;
    r, visited := WalkPdfObjectGraph(pdf, policy, root);
    return r.None?;
  }

  /** The walk with the limits and lists of the entitlement gate. */
  method ScreenEntitlementPdf(pdf: Pdf, trailer: Node) returns (r: Option<WalkError>)
    ensures r.None? ==> Clean(pdf, EntitlementPolicy(), trailer)
    ensures r.Some? && r.value != LimitExceeded ==> !Clean(pdf, EntitlementPolicy(), trailer)
    ensures r == Some(LimitExceeded) ==> TooLarge(pdf, EntitlementPolicy(), trailer)
  {
    ghost var visited: set<Node>;
    r, visited := WalkPdfObjectGraph(pdf, EntitlementPolicy(), trailer);
  }
}
