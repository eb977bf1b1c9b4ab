/** Freezing a pack into a store, verifying one, and why the two agree. */
module AssetPackStore {
  import opened Wrappers
  import opened TextTools
  import opened KeyedSort
  import OC = OutputClosure
  import opened AssetPacks

  // ---------- gathering the objects ----------

  function SourceIds(sources: seq<Source>): (ids: seq<string>)
    ensures |ids| == |sources|
  {
    seq(|sources|, i requires 0 <= i < |sources| => sources[i].assetVersionId)
  }

  /** The bytes declared for a version; nothing when no source names it. */
  function DataOf(sources: seq<Source>, id: string): Option<Bytes>
  {
    if id in SourceIds(sources) then Some(sources[IndexOf(SourceIds(sources), id)].data) else None
  }

  predicate SourcesClose(versions: seq<Version>, sources: seq<Source>)
  {
    Ascending(SourceIds(sources)) && Members(SourceIds(sources)) == Members(Ids(versions))
  }

  /** The declared bytes of a version are an accepted image with the version's digest. */
  predicate Good(codec: Codec, sources: seq<Source>, v: Version)
  {
    var data := DataOf(sources, v.id);
    data.Some? && codec.sha(data.value) == v.contentSha256 && codec.accepts(data.value)
  }

  function ObjectsTo(versions: seq<Version>, sources: seq<Source>, n: nat): map<string, Bytes>
    requires n <= |versions| && forall i | 0 <= i < n :: DataOf(sources, versions[i].id).Some?
  {
    if n == 0 then map[]
    else ObjectsTo(versions, sources, n - 1)[versions[n - 1].contentSha256 := DataOf(sources, versions[n - 1].id).value]
  }

  function SizesTo(versions: seq<Version>, sources: seq<Source>, n: nat): map<string, nat>
    requires n <= |versions| && forall i | 0 <= i < n :: DataOf(sources, versions[i].id).Some?
  {
    if n == 0 then map[]
    else SizesTo(versions, sources, n - 1)[versions[n - 1].id := |DataOf(sources, versions[n - 1].id).value|]
  }

  predicate GoodTo(codec: Codec, versions: seq<Version>, sources: seq<Source>, n: nat)
    requires n <= |versions|
  {
    forall i | 0 <= i < n :: Good(codec, sources, versions[i])
  }

  /** Equal digests come with equal bytes. */
  predicate AgreeTo(versions: seq<Version>, sources: seq<Source>, n: nat)
    requires n <= |versions|
  {
    forall i, j | 0 <= i < j < n && versions[i].contentSha256 == versions[j].contentSha256 ::
      DataOf(sources, versions[i].id) == DataOf(sources, versions[j].id)
  }

  predicate Freezable(codec: Codec, versions: seq<Version>, sources: seq<Source>)
  {
    SourcesClose(versions, sources) && GoodTo(codec, versions, sources, |versions|) && AgreeTo(versions, sources, |versions|)
  }

  lemma {:induction false} ObjectsHold(versions: seq<Version>, sources: seq<Source>, n: nat, i: nat)
    requires i < n <= |versions| && forall k | 0 <= k < n :: DataOf(sources, versions[k].id).Some?
    requires AgreeTo(versions, sources, n)
    ensures var objects := ObjectsTo(versions, sources, n);
            versions[i].contentSha256 in objects && Some(objects[versions[i].contentSha256]) == DataOf(sources, versions[i].id)
    decreases n
  {
    if i < n - 1 { ObjectsHold(versions, sources, n - 1, i); }
  }

  lemma {:induction false} ObjectsComeFrom(versions: seq<Version>, sources: seq<Source>, n: nat, d: string) returns (i: nat)
    requires n <= |versions| && forall k | 0 <= k < n :: DataOf(sources, versions[k].id).Some?
    requires d in ObjectsTo(versions, sources, n)
    ensures i < n && versions[i].contentSha256 == d
    ensures Some(ObjectsTo(versions, sources, n)[d]) == DataOf(sources, versions[i].id)
    decreases n
  {
    if versions[n - 1].contentSha256 == d { i := n - 1; } else { i := ObjectsComeFrom(versions, sources, n - 1, d); }
  }

  lemma {:induction false} SizesHold(versions: seq<Version>, sources: seq<Source>, n: nat, i: nat)
    requires i < n <= |versions| && forall k | 0 <= k < n :: DataOf(sources, versions[k].id).Some?
    requires Ascending(Ids(versions))
    ensures var sizes := SizesTo(versions, sources, n);
            versions[i].id in sizes && sizes[versions[i].id] == |DataOf(sources, versions[i].id).value|
    decreases n
  {
    if i < n - 1 {
      SizesHold(versions, sources, n - 1, i);
      AscendingIsUnique(Ids(versions));
      assert Ids(versions)[i] != Ids(versions)[n - 1];
    }
  }

  function ShasTo(versions: seq<Version>, n: nat): set<string>
    requires n <= |versions|
  {
    set k | 0 <= k < n :: versions[k].contentSha256
  }

  lemma ShasOneMore(versions: seq<Version>, n: nat)
    requires 0 < n <= |versions|
    ensures ShasTo(versions, n) == ShasTo(versions, n - 1) + {versions[n - 1].contentSha256}
  {}

  lemma {:induction false} ObjectKeys(versions: seq<Version>, sources: seq<Source>, n: nat)
    requires n <= |versions| && forall k | 0 <= k < n :: DataOf(sources, versions[k].id).Some?
    ensures ObjectsTo(versions, sources, n).Keys == ShasTo(versions, n)
    decreases n
  {
    if n > 0 {
      ObjectKeys(versions, sources, n - 1);
      ShasOneMore(versions, n);
      assert ObjectsTo(versions, sources, n).Keys == ObjectsTo(versions, sources, n - 1).Keys + {versions[n - 1].contentSha256};
    }
  }

  lemma {:induction false} ShaCount(versions: seq<Version>, n: nat)
    requires n <= |versions|
    ensures |ShasTo(versions, n)| <= n && (n > 0 ==> ShasTo(versions, n) != {})
    decreases n
  {
    if n > 0 {
      ShaCount(versions, n - 1);
      ShasOneMore(versions, n);
    }
  }

  datatype Gathered = Gathered(objects: map<string, Bytes>, sizes: map<string, nat>)

  lemma SourceOfVersion(versions: seq<Version>, sources: seq<Source>, i: nat)
    requires SourcesClose(versions, sources) && i < |versions|
    ensures DataOf(sources, versions[i].id).Some?
  {
    assert VersionKey(versions[i]) == versions[i].id;
    assert Ids(versions)[i] == versions[i].id;
    assert versions[i].id in Members(Ids(versions));
    assert versions[i].id in Members(SourceIds(sources));
  }

  predicate GatheredTo(versions: seq<Version>, sources: seq<Source>, n: nat, g: Gathered)
    requires n <= |versions|
  {
    && (forall k | 0 <= k < n :: DataOf(sources, versions[k].id).Some?)
    && g == Gathered(ObjectsTo(versions, sources, n), SizesTo(versions, sources, n))
  }

  /** One turn of the loop over the versions. */
  method GatherOne(codec: Codec, versions: seq<Version>, sources: seq<Source>, i: nat, g: Gathered)
    returns (r: Result<Gathered, PackError>)
    requires i < |versions| && SourcesClose(versions, sources)
    requires AgreeTo(versions, sources, i) && GatheredTo(versions, sources, i, g)
    ensures r.Success? <==> Good(codec, sources, versions[i]) && AgreeTo(versions, sources, i + 1)
    ensures r.Success? ==> GatheredTo(versions, sources, i + 1, r.value)
  {
    var v := versions[i];
    SourceOfVersion(versions, sources, i);
    var data := DataOf(sources, v.id).value;
    if codec.sha(data) != v.contentSha256 {
      return Failure(DigestMismatch);
    }
    if !codec.accepts(data) {
      return Failure(BadImage);
    }
    if v.contentSha256 in g.objects && g.objects[v.contentSha256] != data {
      ghost var k := ObjectsComeFrom(versions, sources, i, v.contentSha256);
      return Failure(Collision);
    }
    forall k | 0 <= k < i && versions[k].contentSha256 == v.contentSha256
      ensures DataOf(sources, versions[k].id) == Some(data)
    {
      ObjectsHold(versions, sources, i, k);
    }
    return Success(Gathered(g.objects[v.contentSha256 := data], g.sizes[v.id := |data|]));
  }

  /** Reads, digests and validates the sources one version at a time. */
  method Gather(codec: Codec, versions: seq<Version>, sources: seq<Source>) returns (r: Result<Gathered, PackError>)
    ensures r.Success? <==> Freezable(codec, versions, sources)
    ensures r.Success? ==> GatheredTo(versions, sources, |versions|, r.value)
  {
    if !SourcesClose(versions, sources) {
      return Failure(BadSources);
    }
    var g := Gathered(map[], map[]);
    for i := 0 to |versions|
      invariant GoodTo(codec, versions, sources, i) && AgreeTo(versions, sources, i) && GatheredTo(versions, sources, i, g)
    {
      r := GatherOne(codec, versions, sources, i, g);
      if r.Failure? {
        return r;
      }
      g := r.value;
    }
    return Success(g);
  }

  // ---------- the store ----------

  datatype FrozenPack = FrozenPack(packId: string, objectCount: nat, created: bool)

  /** What freezing puts under the pack id, as a function of the sources. */
  datatype Image = Image(packId: string, manifest: Bytes, objects: map<string, Bytes>)

  predicate Sourced(versions: seq<Version>, sources: seq<Source>)
  {
    forall k | 0 <= k < |versions| :: DataOf(sources, versions[k].id).Some?
  }

  lemma SizesCoverVersions(versions: seq<Version>, sources: seq<Source>)
    requires Sourced(versions, sources) && Ascending(Ids(versions))
    ensures forall i | 0 <= i < |versions| :: versions[i].id in SizesTo(versions, sources, |versions|)
  {
    forall i | 0 <= i < |versions| ensures versions[i].id in SizesTo(versions, sources, |versions|) {
      SizesHold(versions, sources, |versions|, i);
    }
  }

  function DescriptorOf(spec: PackSpec, versions: seq<Version>, sources: seq<Source>): Descriptor
    requires Sourced(versions, sources) && Canonical(versions)
  {
    SizesCoverVersions(versions, sources);
    ManifestDescriptor(spec.specSha, versions, SizesTo(versions, sources, |versions|))
  }

  function ImageOf(codec: Codec, spec: PackSpec, versions: seq<Version>, sources: seq<Source>): Image
    requires Sourced(versions, sources) && Canonical(versions)
  {
    var d := DescriptorOf(spec, versions, sources);
    Image(codec.packId(d), codec.print_(codec.packId(d), d), ObjectsTo(versions, sources, |versions|))
  }

  lemma ImageIsSound(codec: Codec, spec: PackSpec, versions: seq<Version>, sources: seq<Source>)
    requires Canonical(versions) && Freezable(codec, versions, sources)
    ensures Sourced(versions, sources)
    ensures var objects := ImageOf(codec, spec, versions, sources).objects;
            && objects.Keys == ShasTo(versions, |versions|) && objects.Keys != {} && |objects.Keys| <= 4
            && forall d | d in objects :: codec.sha(objects[d]) == d && codec.accepts(objects[d])
  {
    ObjectKeys(versions, sources, |versions|);
    ShaCount(versions, |versions|);
    var objects := ObjectsTo(versions, sources, |versions|);
    forall d | d in objects ensures codec.sha(objects[d]) == d && codec.accepts(objects[d]) {
      var i := ObjectsComeFrom(versions, sources, |versions|, d);
      assert Good(codec, sources, versions[i]);
    }
  }

  predicate ObjectsMatch(codec: Codec, t: OC.Tree, objects: map<string, Bytes>, done: set<string>)
    requires done <= objects.Keys
  {
    forall d | d in done :: ObjectPath(d) in t.files && t.files[ObjectPath(d)] == objects[d] && codec.sha(objects[d]) == d
  }

  lemma PathsOneMore(done: set<string>, d: string)
    ensures ObjectPaths(done + {d}) == ObjectPaths(done) + {ObjectPath(d)}
    ensures Buckets(done + {d}) == Buckets(done) + {Bucket(d)}
  {}

  /** The digests of the objects, listed once for a loop. */
  method Listed(digests: set<string>) returns (list: seq<string>)
    ensures forall d :: d in list <==> d in digests
  {
    list := [];
    var left := digests;
    while left != {}
      invariant left <= digests && forall d :: d in list <==> d in digests - left
    {
      var d :| d in left;
      list, left := list + [d], left - {d};
    }
  }

  function Prefix(list: seq<string>, n: nat): set<string>
    requires n <= |list|
  {
    set i | 0 <= i < n :: list[i]
  }

  lemma PrefixOneMore(list: seq<string>, n: nat)
    requires n < |list|
    ensures Prefix(list, n + 1) == Prefix(list, n) + {list[n]}
  {}

  lemma WholePrefix(list: seq<string>, digests: set<string>)
    requires forall d :: d in list <==> d in digests
    ensures Prefix(list, |list|) == digests && forall n | 0 <= n <= |list| :: Prefix(list, n) <= digests
  {}

  method CheckObjects(codec: Codec, t: OC.Tree, objects: map<string, Bytes>) returns (ok: bool, expected: set<OC.Path>)
    ensures ok <==> ObjectsMatch(codec, t, objects, objects.Keys)
    ensures ok ==> expected == {MANIFEST} + ObjectPaths(objects.Keys)
  {
    expected := {MANIFEST};
    var list := Listed(objects.Keys);
    WholePrefix(list, objects.Keys);
    for i := 0 to |list|
      invariant Prefix(list, i) <= objects.Keys && expected == {MANIFEST} + ObjectPaths(Prefix(list, i))
      invariant ObjectsMatch(codec, t, objects, Prefix(list, i))
    {
      var d := list[i];
      if ObjectPath(d) !in t.files || t.files[ObjectPath(d)] != objects[d] || codec.sha(t.files[ObjectPath(d)]) != d {
        return false, expected;
      }
      PrefixOneMore(list, i);
      PathsOneMore(Prefix(list, i), d);
      expected := expected + {ObjectPath(d)};
    }
    return true, expected;
  }

  /** The full test of a pack directory that is already there. */
  method VerifyExisting(codec: Codec, t: OC.Tree, manifest: Bytes, objects: map<string, Bytes>) returns (ok: bool)
    ensures ok <==> ExistingHolds(codec, t, manifest, objects)
  {
    if MANIFEST !in t.files || t.files[MANIFEST] != manifest {
      return false;
    }
    var objectsOk, expected := CheckObjects(codec, t, objects);
    return objectsOk && |t.files.Keys| + |t.directories| <= MAX_ENTRIES && t.files.Keys == expected
           && t.directories == {[OBJECTS]} + Buckets(objects.Keys);
  }

  function Only(objects: map<string, Bytes>, done: set<string>): (part: map<string, Bytes>)
    requires done <= objects.Keys
    ensures part.Keys == done
  {
    map d | d in done :: objects[d]
  }

  /** Writing one object creates its bucket as needed. */
  function WithObject(t: OC.Tree, d: string, data: Bytes): OC.Tree
  {
    OC.Tree(t.directories + {[OBJECTS], Bucket(d)}, t.files[ObjectPath(d) := data])
  }

  lemma OneMoreFile(objects: map<string, Bytes>, done: set<string>, d: string)
    requires done <= objects.Keys && d in objects
    ensures ObjectTree(Only(objects, done)).files[ObjectPath(d) := objects[d]] == ObjectTree(Only(objects, done + {d})).files
  {
    PathsOneMore(done, d);
    var before, after := ObjectTree(Only(objects, done)).files, ObjectTree(Only(objects, done + {d})).files;
    assert after.Keys == before.Keys + {ObjectPath(d)};
    forall p | p in after ensures p in before[ObjectPath(d) := objects[d]] && before[ObjectPath(d) := objects[d]][p] == after[p] {
      var x :| x in done + {d} && ObjectPath(x) == p;
      assert p[2] == x;
    }
  }

  lemma OneMoreObject(objects: map<string, Bytes>, done: set<string>, d: string)
    requires done <= objects.Keys && d in objects
    ensures WithObject(ObjectTree(Only(objects, done)), d, objects[d]) == ObjectTree(Only(objects, done + {d}))
  {
    OneMoreFile(objects, done, d);
    PathsOneMore(done, d);
  }

  method WriteObjects(objects: map<string, Bytes>) returns (t: OC.Tree)
    ensures t == ObjectTree(objects)
  {
    t := OC.Tree({}, map[]);
    var list := Listed(objects.Keys);
    WholePrefix(list, objects.Keys);
    for i := 0 to |list|
      invariant Prefix(list, i) <= objects.Keys && t == ObjectTree(Only(objects, Prefix(list, i)))
    {
      PrefixOneMore(list, i);
      OneMoreObject(objects, Prefix(list, i), list[i]);
      t := WithObject(t, list[i], objects[list[i]]);
    }
    assert Only(objects, objects.Keys) == objects;
  }

  /** The packs below one output directory, by pack id. */
  class PackStore {
    var packs: map<string, OC.Tree>

    constructor (packs: map<string, OC.Tree>)
      ensures this.packs == packs
    {
      this.packs := packs;
    }

    /** Adds a pack that is not there yet, or leaves the store alone and checks the one that is. */
    method Freeze(codec: Codec, spec: PackSpec, sources: seq<Source>) returns (r: Result<FrozenPack, PackError>)
      requires ValidPackSpec(spec)
      modifies this
      ensures !Freezable(codec, ActiveVersions(spec), sources) ==> r.Failure? && packs == old(packs)
      ensures Freezable(codec, ActiveVersions(spec), sources) ==>
        Sourced(ActiveVersions(spec), sources) && Canonical(ActiveVersions(spec))
      ensures Freezable(codec, ActiveVersions(spec), sources) ==>
        var image := ImageOf(codec, spec, ActiveVersions(spec), sources);
        if image.packId in old(packs) then
          && packs == old(packs)
          && (r.Success? <==> ExistingHolds(codec, old(packs)[image.packId], image.manifest, image.objects))
          && (r.Success? ==> r.value == FrozenPack(image.packId, |image.objects|, false))
        else
          && packs == old(packs)[image.packId := PackTree(image.manifest, image.objects)]
          && r == Success(FrozenPack(image.packId, |image.objects|, true))
    {
      var versions := ActiveVersions(spec);
      ActiveIsCanonical(spec);
      var gathered := Gather(codec, versions, sources);
      if gathered.Failure? {
        return Failure(gathered.error);
      }
      SizesCoverVersions(versions, sources);
      ImageIsSound(codec, spec, versions, sources);
      var objects := gathered.value.objects;
      var descriptor := ManifestDescriptor(spec.specSha, versions, gathered.value.sizes);
      var packId := codec.packId(descriptor);
      var manifest := codec.print_(packId, descriptor);
      if packId in packs {
        var same := VerifyExisting(codec, packs[packId], manifest, objects);
        return if same then Success(FrozenPack(packId, |objects|, false)) else Failure(Conflict);
      }
      var tree := WriteObjects(objects);
      tree := tree.(files := tree.files[MANIFEST := manifest]);
      packs := packs[packId := tree];
      PackTreeHolds(codec, manifest, objects);
      var complete := VerifyExisting(codec, tree, manifest, objects);
      if !complete {
        return Failure(Incomplete);
      }
      return Success(FrozenPack(packId, |objects|, true));
    }
  }

  /** What a freeze leaves behind passes the test that the next freeze makes. */
  lemma FrozenImageHolds(codec: Codec, spec: PackSpec, versions: seq<Version>, sources: seq<Source>)
    requires Canonical(versions) && Freezable(codec, versions, sources)
    ensures Sourced(versions, sources)
    ensures var image := ImageOf(codec, spec, versions, sources);
            ExistingHolds(codec, PackTree(image.manifest, image.objects), image.manifest, image.objects)
  {
    ImageIsSound(codec, spec, versions, sources);
    var image := ImageOf(codec, spec, versions, sources);
    PackTreeHolds(codec, image.manifest, image.objects);
  }

  /** A second freeze of the same sources finds the pack the first one made, changes nothing, and says so. */
  method FreezeTwice(codec: Codec, spec: PackSpec, sources: seq<Source>, store: PackStore)
    returns (first: Result<FrozenPack, PackError>, second: Result<FrozenPack, PackError>, ghost between: map<string, OC.Tree>)
    requires ValidPackSpec(spec)
    modifies store
    ensures first.Success? ==> store.packs == between && second == Success(first.value.(created := false))
  {
    ActiveIsCanonical(spec);
    first := store.Freeze(codec, spec, sources);
    between := store.packs;
    if Freezable(codec, ActiveVersions(spec), sources) {
      FrozenImageHolds(codec, spec, ActiveVersions(spec), sources);
    }
    second := store.Freeze(codec, spec, sources);
  }
}
