/** Content-addressed asset packs: the descriptor, the tree it is stored as, freezing and verification. */
module AssetPacks {
  import opened Wrappers
  import opened TextTools
  import opened KeyedSort
  import opened Numerals
  import opened TextFormats
  import OC = OutputClosure

  /** One approved version of a character's or a scene's image. */
  datatype Version = Version(
    id: string, ownerId: string, version: nat, contentSha256: string, approvalRef: string, visualDescription: string,
    character: bool)

  /** A character or scene bible: its versions and the one in force. */
  datatype Bible = Bible(versions: seq<Version>, activeId: string)

  datatype PackSpec = PackSpec(specSha: string, bibles: seq<Bible>)

  datatype Source = Source(assetVersionId: string, data: Bytes)

  datatype ObjectEntry = ObjectEntry(sha256: string, sizeBytes: nat)

  datatype BindingEntry = BindingEntry(assetVersionId: string, objectSha256: string)

  datatype Descriptor = Descriptor(
    specSha: string, characterVersions: seq<Version>, sceneVersions: seq<Version>, bindings: seq<BindingEntry>,
    objects: seq<ObjectEntry>)

  /** The file digest, the image validator, the pack id, and how a manifest prints and reads. */
  datatype Codec = Codec(
    sha: Bytes -> string, accepts: Bytes -> bool, packId: Descriptor -> string,
    print_: (string, Descriptor) -> Bytes, parse: Bytes -> Option<(string, Descriptor)>)

  const MANIFEST: OC.Path := ["asset-pack.json"]
  const OBJECTS := "objects"
  const MAX_ENTRIES := 32
  const MAX_MANIFEST_BYTES := 1024 * 1024
  const MAX_MEDIA_BYTES := 512 * 1024 * 1024
  const MAX_DIGITS := 4300

  datatype PackError = BadSources | DigestMismatch | BadImage | Collision | Incomplete | Conflict | BadManifest | BadCatalog

  // ---------- active versions and the descriptor ----------

  function VersionKey(v: Version): string { v.id }

  function Ids(versions: seq<Version>): seq<string> { Keys(VersionKey, versions) }

  /** The version's contract; a longer number cannot be printed when its identifier is derived. */
  predicate ValidVersion(v: Version)
  {
    && IsIdentifier(v.id) && IsIdentifier(v.ownerId) && v.version >= 1 && |Decimal(v.version)| <= MAX_DIGITS
    && IsSha256(v.contentSha256) && IsIdentifier(v.approvalRef) && 1 <= |v.visualDescription| <= 4000
  }

  /** The version in force of every bible, in bible order. */
  function Selected(bibles: seq<Bible>): seq<Version>
    requires forall i | 0 <= i < |bibles| :: bibles[i].activeId in Ids(bibles[i].versions)
  {
    seq(|bibles|, i requires 0 <= i < |bibles| => bibles[i].versions[IndexOf(Ids(bibles[i].versions), bibles[i].activeId)])
  }

  predicate ValidPackSpec(spec: PackSpec)
  {
    && IsSha256(spec.specSha) && 1 <= |spec.bibles| <= 4
    && (forall i | 0 <= i < |spec.bibles| :: spec.bibles[i].activeId in Ids(spec.bibles[i].versions))
    && Unique(Ids(Selected(spec.bibles)))
    && forall i | 0 <= i < |spec.bibles| :: ValidVersion(Selected(spec.bibles)[i])
  }

  function ActiveVersions(spec: PackSpec): seq<Version>
    requires ValidPackSpec(spec)
  {
    SortBy(VersionKey, Selected(spec.bibles))
  }

  predicate Canonical(versions: seq<Version>)
  {
    1 <= |versions| <= 4 && Ascending(Ids(versions)) && forall i | 0 <= i < |versions| :: ValidVersion(versions[i])
  }

  lemma ActiveIsCanonical(spec: PackSpec)
    requires ValidPackSpec(spec)
    ensures Canonical(ActiveVersions(spec))
  {
    var chosen := Selected(spec.bibles);
    var active := ActiveVersions(spec);
    SortKeepsItems(VersionKey, chosen);
    assert |multiset(active)| == |multiset(chosen)|;
    UniqueIsAboutItems(VersionKey, chosen, active);
    SortedIsAscending(VersionKey, chosen);
    forall i | 0 <= i < |active| ensures ValidVersion(active[i]) {
      assert active[i] in multiset(active);
      var k :| 0 <= k < |chosen| && chosen[k] == active[i];
    }
  }

  function EntryKey(e: ObjectEntry): string { e.sha256 }

  /** The sequence without its repetitions. */
  function Distinct(xs: seq<ObjectEntry>): seq<ObjectEntry>
  {
    if xs == [] then []
    else
      var before, last := Distinct(xs[..|xs| - 1]), xs[|xs| - 1];
      if last in before then before else before + [last]
  }

  function EntriesOf(versions: seq<Version>, sizes: map<string, nat>): seq<ObjectEntry>
    requires forall i | 0 <= i < |versions| :: versions[i].id in sizes
  {
    seq(|versions|, i requires 0 <= i < |versions| => ObjectEntry(versions[i].contentSha256, sizes[versions[i].id]))
  }

  function OfKind(versions: seq<Version>, character: bool): seq<Version>
  {
    if versions == [] then []
    else
      var last := versions[|versions| - 1];
      OfKind(versions[..|versions| - 1], character) + if last.character == character then [last] else []
  }

  function ManifestDescriptor(specSha: string, versions: seq<Version>, sizes: map<string, nat>): Descriptor
    requires forall i | 0 <= i < |versions| :: versions[i].id in sizes
  {
    Descriptor(
      specSha, OfKind(versions, true), OfKind(versions, false),
      seq(|versions|, i requires 0 <= i < |versions| => BindingEntry(versions[i].id, versions[i].contentSha256)),
      SortBy(EntryKey, Distinct(EntriesOf(versions, sizes))))
  }

  // ---------- the tree of a pack ----------

  function ObjectPath(digest: string): OC.Path
  {
    [OBJECTS, if |digest| < 2 then digest else digest[..2], digest]
  }

  function Bucket(digest: string): OC.Path { [OBJECTS, if |digest| < 2 then digest else digest[..2]] }

  function ObjectPaths(digests: set<string>): set<OC.Path> { set d | d in digests :: ObjectPath(d) }

  function Buckets(digests: set<string>): set<OC.Path> { set d | d in digests :: Bucket(d) }

  /** The directories a digest set needs; none before the first object is written. */
  function ObjectDirectories(digests: set<string>): set<OC.Path>
  {
    if digests == {} then {} else {[OBJECTS]} + Buckets(digests)
  }

  function ObjectTree(objects: map<string, Bytes>): OC.Tree
  {
    OC.Tree(ObjectDirectories(objects.Keys), map p | p in ObjectPaths(objects.Keys) :: objects[p[2]])
  }

  function PackTree(manifest: Bytes, objects: map<string, Bytes>): OC.Tree
  {
    var t := ObjectTree(objects);
    t.(files := t.files[MANIFEST := manifest])
  }

  lemma ObjectInTree(manifest: Bytes, objects: map<string, Bytes>, d: string)
    requires d in objects
    ensures ObjectPath(d) in PackTree(manifest, objects).files && PackTree(manifest, objects).files[ObjectPath(d)] == objects[d]
  {
    assert ObjectPath(d) in ObjectPaths(objects.Keys) && ObjectPath(d)[2] == d;
  }

  /** The test an existing pack directory must pass. */
  predicate ExistingHolds(codec: Codec, t: OC.Tree, manifest: Bytes, objects: map<string, Bytes>)
  {
    && MANIFEST in t.files && t.files[MANIFEST] == manifest
    && (forall d | d in objects :: ObjectPath(d) in t.files && t.files[ObjectPath(d)] == objects[d] && codec.sha(objects[d]) == d)
    && |t.files.Keys| + |t.directories| <= MAX_ENTRIES
    && t.files.Keys == {MANIFEST} + ObjectPaths(objects.Keys)
    && t.directories == {[OBJECTS]} + Buckets(objects.Keys)
  }

  lemma PackTreeHolds(codec: Codec, manifest: Bytes, objects: map<string, Bytes>)
    requires objects.Keys != {} && |objects.Keys| <= 4 && forall d | d in objects :: codec.sha(objects[d]) == d
    ensures ExistingHolds(codec, PackTree(manifest, objects), manifest, objects)
  {
    PackKeys(manifest, objects);
    PackIsSmall(manifest, objects);
    forall d | d in objects
      ensures ObjectPath(d) in PackTree(manifest, objects).files && PackTree(manifest, objects).files[ObjectPath(d)] == objects[d]
    {
      ObjectInTree(manifest, objects, d);
    }
  }

  lemma HoldingIsPackTree(codec: Codec, t: OC.Tree, manifest: Bytes, objects: map<string, Bytes>)
    requires objects.Keys != {} && ExistingHolds(codec, t, manifest, objects)
    ensures t == PackTree(manifest, objects)
  {
    PackKeys(manifest, objects);
    var pack := PackTree(manifest, objects);
    forall p | p in pack.files ensures t.files[p] == pack.files[p] {
      if p != MANIFEST {
        var d :| d in objects.Keys && ObjectPath(d) == p;
        ObjectInTree(manifest, objects, d);
      }
    }
    assert t.files == pack.files;
  }

  /** An existing directory passes exactly when it is the tree of that manifest and those objects. */
  lemma ExistingIsThePackTree(codec: Codec, t: OC.Tree, manifest: Bytes, objects: map<string, Bytes>)
    requires objects.Keys != {} && |objects.Keys| <= 4
    ensures ExistingHolds(codec, t, manifest, objects)
            <==> t == PackTree(manifest, objects) && forall d | d in objects :: codec.sha(objects[d]) == d
  {
    if ExistingHolds(codec, t, manifest, objects) { HoldingIsPackTree(codec, t, manifest, objects); }
    if forall d | d in objects :: codec.sha(objects[d]) == d { PackTreeHolds(codec, manifest, objects); }
  }

  lemma PackKeys(manifest: Bytes, objects: map<string, Bytes>)
    ensures var pack := PackTree(manifest, objects);
            && pack.files.Keys == {MANIFEST} + ObjectPaths(objects.Keys) && pack.files[MANIFEST] == manifest
            && pack.directories == ObjectDirectories(objects.Keys)
  {}

  lemma {:induction false} ImagesAreFew(digests: set<string>)
    ensures |ObjectPaths(digests)| <= |digests| && |Buckets(digests)| <= |digests|
    decreases digests
  {
    if digests == {} {
      assert ObjectPaths(digests) == {} && Buckets(digests) == {};
    } else {
      var d :| d in digests;
      ImagesAreFew(digests - {d});
      assert ObjectPaths(digests) == ObjectPaths(digests - {d}) + {ObjectPath(d)};
      assert Buckets(digests) == Buckets(digests - {d}) + {Bucket(d)};
    }
  }

  lemma PackIsSmall(manifest: Bytes, objects: map<string, Bytes>)
    requires |objects.Keys| <= 4
    ensures |PackTree(manifest, objects).files.Keys| + |PackTree(manifest, objects).directories| <= 10
  {
    PackKeys(manifest, objects);
    ImagesAreFew(objects.Keys);
  }
}
