/** Canonical evidence bundles: building, currency, and verification of the objects behind them. */
module EvidenceBundles {
  import opened Wrappers
  import opened TextTools
  import opened KeyedSort

  datatype EvidenceObject = EvidenceObject(sha256: string, sizeBytes: nat, mediaType: string)

  datatype Member = Member(logicalPath: string, role: string, objectSha256: string, contentSchemaVersion: Option<string>)

  datatype Capture = Capture(
    captureId: string, kind: string, capturedAt: int, validUntil: int, isFresh: bool, memberPaths: seq<string>)

  /** One line of the resolved tree: a member together with the object it names. */
  datatype Resolved = Resolved(member: Member, item: EvidenceObject)

  /** Digests are injective: each stands for the document it was taken of. */
  datatype TreeSha = TreeSha(resolved: seq<Resolved>)

  datatype Content = Content(
    createdAt: int, validUntil: int, predecessor: Option<string>, objects: seq<EvidenceObject>, members: seq<Member>,
    captures: seq<Capture>, treeSha: TreeSha)

  datatype BundleId = BundleId(content: Content)

  datatype Bundle = Bundle(bundleId: BundleId, content: Content)

  const MAX_BUNDLE_BYTES := 512 * 1024 * 1024

  // ---------- keys ----------

  function Sha(o: EvidenceObject): string { o.sha256 }

  function Path(m: Member): string { m.logicalPath }

  function CaptureKey(c: Capture): string { c.captureId }

  // ---------- the content contract ----------

  function TotalSize(objects: seq<EvidenceObject>): nat
  {
    if objects == [] then 0 else TotalSize(objects[..|objects| - 1]) + objects[|objects| - 1].sizeBytes
  }

  function CapturedPaths(captures: seq<Capture>): seq<string>
  {
    if captures == [] then [] else CapturedPaths(captures[..|captures| - 1]) + captures[|captures| - 1].memberPaths
  }

  function Earliest(captures: seq<Capture>): int
    requires captures != []
  {
    var last := captures[|captures| - 1].validUntil;
    if |captures| == 1 then last
    else
      var before := Earliest(captures[..|captures| - 1]);
      if last < before then last else before
  }

  function ObjectBySha(objects: seq<EvidenceObject>, sha256: string): Option<EvidenceObject>
  {
    if objects == [] then None
    else if objects[|objects| - 1].sha256 == sha256 then Some(objects[|objects| - 1])
    else ObjectBySha(objects[..|objects| - 1], sha256)
  }

  /** The resolved tree in the given member order; nothing when a member names an undeclared object. */
  function ResolveInOrder(objects: seq<EvidenceObject>, members: seq<Member>): Option<seq<Resolved>>
  {
    if members == [] then Some([])
    else
      var last := members[|members| - 1];
      var before, item := ResolveInOrder(objects, members[..|members| - 1]), ObjectBySha(objects, last.objectSha256);
      if before.None? || item.None? then None else Some(before.value + [Resolved(last, item.value)])
  }

  function LogicalTree(objects: seq<EvidenceObject>, members: seq<Member>): Option<TreeSha>
  {
    var resolved := ResolveInOrder(objects, SortBy(Path, members));
    if resolved.None? then None else Some(TreeSha(resolved.value))
  }

  predicate ValidCapture(c: Capture)
  {
    c.capturedAt <= c.validUntil && c.memberPaths != [] && Ascending(c.memberPaths)
  }

  predicate ObjectsClose(objects: seq<EvidenceObject>, members: seq<Member>)
  {
    (set i | 0 <= i < |members| :: members[i].objectSha256) == Members(Keys(Sha, objects))
  }

  predicate CapturesClose(captures: seq<Capture>, members: seq<Member>)
  {
    Unique(CapturedPaths(captures)) && Members(CapturedPaths(captures)) == Members(Keys(Path, members))
  }

  predicate Folded(fold: string -> string, members: seq<Member>)
  {
    forall i, j | 0 <= i < j < |members| :: fold(members[i].logicalPath) != fold(members[j].logicalPath)
  }

  predicate InOrder(c: Content)
  {
    Ascending(Keys(Sha, c.objects)) && Ascending(Keys(Path, c.members)) && Ascending(Keys(CaptureKey, c.captures))
  }

  predicate ValidContent(fold: string -> string, c: Content)
  {
    && c.objects != [] && c.members != [] && c.captures != [] && InOrder(c)
    && Folded(fold, c.members) && ObjectsClose(c.objects, c.members) && TotalSize(c.objects) <= MAX_BUNDLE_BYTES
    && CapturesClose(c.captures, c.members)
    && (forall i | 0 <= i < |c.captures| :: c.captures[i].capturedAt <= c.createdAt)
    && c.validUntil == Earliest(c.captures)
    && LogicalTree(c.objects, c.members) == Some(c.treeSha)
  }

  // ---------- building ----------

  function Assemble(createdAt: int, predecessor: Option<string>, objects: seq<EvidenceObject>, members: seq<Member>,
                    captures: seq<Capture>): Option<Content>
  {
    var tree := LogicalTree(objects, members);
    if captures == [] || tree.None? then None
    else Some(Content(createdAt, Earliest(captures), predecessor, objects, members, captures, tree.value))
  }

  predicate AllValid(captures: seq<Capture>) { forall i | 0 <= i < |captures| :: ValidCapture(captures[i]) }

  predicate AllFresh(captures: seq<Capture>) { forall i | 0 <= i < |captures| :: captures[i].isFresh }

  /** The bundle of the given parts in canonical order, or nothing where the source raises. */
  function Build(fold: string -> string, createdAt: int, predecessor: Option<string>, objects: seq<EvidenceObject>,
                 members: seq<Member>, captures: seq<Capture>): Option<Bundle>
  {
    var o, m, c := SortBy(Sha, objects), SortBy(Path, members), SortBy(CaptureKey, captures);
    if !AllValid(c) || !AllFresh(c) then None
    else
      var content := Assemble(createdAt, predecessor, o, m, c);
      if content.None? || !ValidContent(fold, content.value) then None
      else Some(Bundle(BundleId(content.value), content.value))
  }

  lemma BuiltParts(fold: string -> string, createdAt: int, predecessor: Option<string>, objects: seq<EvidenceObject>,
                   members: seq<Member>, captures: seq<Capture>)
    requires Build(fold, createdAt, predecessor, objects, members, captures).Some?
    ensures var c := Build(fold, createdAt, predecessor, objects, members, captures).value.content;
            && ValidContent(fold, c) && c.objects == SortBy(Sha, objects) && c.members == SortBy(Path, members)
            && c.captures == SortBy(CaptureKey, captures) && AllFresh(c.captures)
            && c.createdAt == createdAt && c.predecessor == predecessor
  {}

  lemma BuiltOneWay(fold: string -> string, createdAt: int, predecessor: Option<string>,
                    objects: seq<EvidenceObject>, members: seq<Member>, captures: seq<Capture>,
                    objects': seq<EvidenceObject>, members': seq<Member>, captures': seq<Capture>)
    requires multiset(objects) == multiset(objects') && multiset(members) == multiset(members')
    requires multiset(captures) == multiset(captures')
    requires Build(fold, createdAt, predecessor, objects, members, captures).Some?
    ensures Build(fold, createdAt, predecessor, objects', members', captures')
         == Build(fold, createdAt, predecessor, objects, members, captures)
  {
    BuiltParts(fold, createdAt, predecessor, objects, members, captures);
    SortingForgetsOrder(Sha, objects, objects');
    SortingForgetsOrder(Path, members, members');
    SortingForgetsOrder(CaptureKey, captures, captures');
  }

  /** One result for every arrangement of the parts: the same bundle, or no bundle. */
  lemma OrderOfPartsDoesNotMatter(fold: string -> string, createdAt: int, predecessor: Option<string>,
                                  objects: seq<EvidenceObject>, members: seq<Member>, captures: seq<Capture>,
                                  objects': seq<EvidenceObject>, members': seq<Member>, captures': seq<Capture>)
    requires multiset(objects) == multiset(objects') && multiset(members) == multiset(members')
    requires multiset(captures) == multiset(captures')
    ensures Build(fold, createdAt, predecessor, objects', members', captures')
         == Build(fold, createdAt, predecessor, objects, members, captures)
  {
    if Build(fold, createdAt, predecessor, objects, members, captures).Some? {
      BuiltOneWay(fold, createdAt, predecessor, objects, members, captures, objects', members', captures');
    } else if Build(fold, createdAt, predecessor, objects', members', captures').Some? {
      BuiltOneWay(fold, createdAt, predecessor, objects', members', captures', objects, members, captures);
    }
  }

  lemma SortedStays<T>(key: T -> string, xs: seq<T>)
    requires Ascending(Keys(key, xs))
    ensures SortBy(key, xs) == xs
  {
    SortKeepsItems(key, xs);
    SortedIsAscending(key, xs);
    AscendingIsUnique(Keys(key, xs));
    UniqueIsAboutItems(key, xs, SortBy(key, xs));
    AscendingIsTheOnlyOrder(key, xs, SortBy(key, xs));
  }

  /** A valid content is a fixed point: built again from its own parts it is the same bundle. */
  lemma BuildingIsCanonical(fold: string -> string, c: Content)
    requires ValidContent(fold, c) && AllValid(c.captures) && AllFresh(c.captures)
    ensures Build(fold, c.createdAt, c.predecessor, c.objects, c.members, c.captures) == Some(Bundle(BundleId(c), c))
  {
    SortedStays(Sha, c.objects);
    SortedStays(Path, c.members);
    SortedStays(CaptureKey, c.captures);
    AssembledAgain(c);
  }

  lemma AssembledAgain(c: Content)
    requires c.captures != [] && c.validUntil == Earliest(c.captures)
    requires LogicalTree(c.objects, c.members) == Some(c.treeSha)
    ensures Assemble(c.createdAt, c.predecessor, c.objects, c.members, c.captures) == Some(c)
  {}

  // ---------- currency ----------

  datatype Currency = Current | NotYetValid | Expired | UnverifiedOrigin

  function AssertCurrent(c: Content, at: int): Currency
  {
    if at < c.createdAt then NotYetValid
    else if at > c.validUntil then Expired
    else if !AllFresh(c.captures) then UnverifiedOrigin
    else Current
  }

  lemma {:induction false} EarliestIsLeast(captures: seq<Capture>)
    requires captures != []
    ensures forall i | 0 <= i < |captures| :: Earliest(captures) <= captures[i].validUntil
    ensures exists i | 0 <= i < |captures| :: Earliest(captures) == captures[i].validUntil
    decreases |captures|
  {
    if |captures| > 1 {
      var n := |captures| - 1;
      EarliestIsLeast(captures[..n]);
      var i :| 0 <= i < n && Earliest(captures[..n]) == captures[..n][i].validUntil;
      assert Earliest(captures) == captures[n].validUntil || Earliest(captures) == captures[i].validUntil;
    } else {
      assert captures[0].validUntil == Earliest(captures);
    }
  }

  /** A built bundle is current exactly from its assembly to its first expiry, and then every capture is in force. */
  lemma CurrentMeansEveryCaptureHolds(fold: string -> string, c: Content, at: int)
    requires ValidContent(fold, c) && AllFresh(c.captures)
    ensures AssertCurrent(c, at) == Current
            <==> c.createdAt <= at && forall i | 0 <= i < |c.captures| :: at <= c.captures[i].validUntil
    ensures AssertCurrent(c, at) == Current
            ==> forall i | 0 <= i < |c.captures| :: c.captures[i].capturedAt <= at <= c.captures[i].validUntil
  {
    EarliestIsLeast(c.captures);
  }

  // ---------- verification ----------

  function Flat(chunks: seq<Bytes>): Bytes
  {
    if chunks == [] then [] else Flat(chunks[..|chunks| - 1]) + chunks[|chunks| - 1]
  }

  lemma {:induction false} FlatGrows(chunks: seq<Bytes>, i: nat, n: nat)
    requires i <= n <= |chunks|
    ensures |Flat(chunks[..i])| <= |Flat(chunks[..n])|
    decreases n
  {
    if i < n {
      assert chunks[..n][..n - 1] == chunks[..n - 1];
      FlatGrows(chunks, i, n - 1);
    }
  }

  predicate Holds(sha: Bytes -> string, data: Bytes, item: EvidenceObject)
  {
    |data| == item.sizeBytes && sha(data) == item.sha256
  }

  /** Reads one object chunk by chunk and gives up as soon as it is longer than declared. */
  method VerifyObject(sha: Bytes -> string, chunks: seq<Bytes>, item: EvidenceObject) returns (r: Option<Bytes>)
    ensures r == if Holds(sha, Flat(chunks), item) then Some(Flat(chunks)) else None
  {
    var data: Bytes := [];
    var size := 0;
    for i := 0 to |chunks|
      invariant data == Flat(chunks[..i]) && size == |data|
    {
      assert chunks[..i + 1][..i] == chunks[..i];
      size := size + |chunks[i]|;
      if size > item.sizeBytes {
        FlatGrows(chunks, i + 1, |chunks|);
        assert chunks[..|chunks|] == chunks;
        return None;
      }
      data := data + chunks[i];
    }
    assert chunks[..|chunks|] == chunks;
    if size != item.sizeBytes || sha(data) != item.sha256 {
      return None;
    }
    return Some(data);
  }

  datatype ResolvedMember = ResolvedMember(member: Member, data: Bytes)

  predicate Stored(sha: Bytes -> string, store: map<string, seq<Bytes>>, item: EvidenceObject)
  {
    item.sha256 in store && Holds(sha, Flat(store[item.sha256]), item)
  }

  lemma DeclaredObject(fold: string -> string, c: Content, i: nat) returns (j: nat)
    requires ValidContent(fold, c) && i < |c.members|
    ensures j < |c.objects| && c.objects[j].sha256 == c.members[i].objectSha256
  {
    j := ObjectOfMember(c.objects, c.members, i);
  }

  lemma ObjectOfMember(objects: seq<EvidenceObject>, members: seq<Member>, i: nat) returns (j: nat)
    requires ObjectsClose(objects, members) && i < |members|
    ensures j < |objects| && objects[j].sha256 == members[i].objectSha256
  {
    assert members[i].objectSha256 in Members(Keys(Sha, objects));
    j :| 0 <= j < |objects| && Keys(Sha, objects)[j] == members[i].objectSha256;
    assert Sha(objects[j]) == objects[j].sha256;
  }

  method VerifyObjects(sha: Bytes -> string, store: map<string, seq<Bytes>>, objects: seq<EvidenceObject>)
    returns (r: Option<map<string, Bytes>>)
    ensures r.Some? <==> forall i | 0 <= i < |objects| :: Stored(sha, store, objects[i])
    ensures r.Some? ==> forall i | 0 <= i < |objects| ::
      objects[i].sha256 in r.value && r.value[objects[i].sha256] == Flat(store[objects[i].sha256])
  {
    var verified: map<string, Bytes> := map[];
    for i := 0 to |objects|
      invariant forall k | 0 <= k < i ::
        && Stored(sha, store, objects[k]) && objects[k].sha256 in verified
        && verified[objects[k].sha256] == Flat(store[objects[k].sha256])
    {
      if objects[i].sha256 !in store {
        return None;
      }
      var data := VerifyObject(sha, store[objects[i].sha256], objects[i]);
      if data.None? {
        return None;
      }
      verified := verified[objects[i].sha256 := data.value];
    }
    return Some(verified);
  }

  /** Every member in path order with the bytes its digest names, exactly when every declared object is intact. */
  method VerifyBundle(fold: string -> string, sha: Bytes -> string, store: map<string, seq<Bytes>>, c: Content)
    returns (r: Option<seq<ResolvedMember>>)
    requires ValidContent(fold, c)
    ensures r.Some? <==> forall i | 0 <= i < |c.objects| :: Stored(sha, store, c.objects[i])
    ensures r.Some? ==> |r.value| == |c.members| && forall i | 0 <= i < |c.members| ::
      r.value[i].member == c.members[i] && sha(r.value[i].data) == c.members[i].objectSha256
  {
    var verified := VerifyObjects(sha, store, c.objects);
    if verified.None? {
      return None;
    }
    var resolved: seq<ResolvedMember> := [];
    for i := 0 to |c.members|
      invariant |resolved| == i && forall k | 0 <= k < i ::
        resolved[k].member == c.members[k] && sha(resolved[k].data) == c.members[k].objectSha256
    {
      ghost var j := DeclaredObject(fold, c, i);
      assert Stored(sha, store, c.objects[j]);
      resolved := resolved + [ResolvedMember(c.members[i], verified.value[c.members[i].objectSha256])];
    }
    return Some(resolved);
  }
}
