/** Freeze then verify: what freezing stores is what verification accepts, and verification pins the whole pack. */
module AssetPackAgreement {
  import opened Wrappers
  import opened TextFormats
  import opened TextTools
  import opened KeyedSort
  import OC = OutputClosure
  import opened AssetPacks
  import opened AssetPackStore
  import opened AssetPackVerify
  import opened AssetPackManifest
  import Utf8

  // ---------- the object catalog of a descriptor ----------

  lemma {:induction false} DistinctMembers(xs: seq<ObjectEntry>)
    ensures forall e :: e in Distinct(xs) <==> e in xs
    ensures forall i, j | 0 <= i < j < |Distinct(xs)| :: Distinct(xs)[i] != Distinct(xs)[j]
    decreases |xs|
  {
    if xs != [] {
      var init, last := xs[..|xs| - 1], xs[|xs| - 1];
      DistinctMembers(init);
      assert xs == init + [last];
    }
  }

  predicate ByDigest(entries: seq<ObjectEntry>)
  {
    forall i, j | 0 <= i < |entries| && 0 <= j < |entries| && entries[i].sha256 == entries[j].sha256 :: entries[i] == entries[j]
  }

  lemma SortedMembers(xs: seq<ObjectEntry>, e: ObjectEntry)
    ensures e in SortBy(EntryKey, xs) <==> e in xs
  {
    SortKeepsItems(EntryKey, xs);
    assert e in multiset(SortBy(EntryKey, xs)) <==> e in multiset(xs);
  }

  lemma DistinctDigests(entries: seq<ObjectEntry>)
    requires ByDigest(entries)
    ensures Unique(Keys(EntryKey, Distinct(entries)))
  {
    var distinct := Distinct(entries);
    DistinctMembers(entries);
    forall i, j | 0 <= i < j < |distinct| ensures EntryKey(distinct[i]) != EntryKey(distinct[j]) {
      assert distinct[i] in entries && distinct[j] in entries;
      var a :| 0 <= a < |entries| && entries[a] == distinct[i];
      var b :| 0 <= b < |entries| && entries[b] == distinct[j];
    }
  }

  /** Entries that are determined by their digest: sorted without repetition they keep their members, each digest once. */
  lemma CatalogOf(entries: seq<ObjectEntry>)
    requires ByDigest(entries)
    ensures Unique(Keys(EntryKey, SortBy(EntryKey, Distinct(entries))))
    ensures forall e :: e in SortBy(EntryKey, Distinct(entries)) <==> e in entries
  {
    DistinctMembers(entries);
    DistinctDigests(entries);
    SortKeepsItems(EntryKey, Distinct(entries));
    UniqueIsAboutItems(EntryKey, Distinct(entries), SortBy(EntryKey, Distinct(entries)));
    forall e ensures e in SortBy(EntryKey, Distinct(entries)) <==> e in entries { SortedMembers(Distinct(entries), e); }
  }

  // ---------- sizes ----------

  /** Sizes read from the sources are the sizes of the gathered objects. */
  lemma {:induction false} SizesAgree(versions: seq<Version>, sources: seq<Source>, objects: map<string, Bytes>, n: nat)
    requires n <= |versions| && Sourced(versions, sources)
    requires forall i | 0 <= i < |versions| ::
      versions[i].contentSha256 in objects && Some(objects[versions[i].contentSha256]) == DataOf(sources, versions[i].id)
    ensures SizesFrom(versions, objects, n) == SizesTo(versions, sources, n)
    decreases n
  {
    if n > 0 { SizesAgree(versions, sources, objects, n - 1); }
  }

  lemma IdsDiffer(versions: seq<Version>, i: nat, j: nat)
    requires Ascending(Ids(versions)) && i < j < |versions|
    ensures versions[i].id != versions[j].id
  {
    AscendingIsUnique(Ids(versions));
    assert Ids(versions)[i] == VersionKey(versions[i]) && Ids(versions)[j] == VersionKey(versions[j]);
  }

  lemma {:induction false} SizeOfVersion(versions: seq<Version>, objects: map<string, Bytes>, n: nat, i: nat)
    requires i < n <= |versions| && Ascending(Ids(versions))
    requires forall k | 0 <= k < n :: versions[k].contentSha256 in objects
    ensures versions[i].id in SizesFrom(versions, objects, n)
    ensures SizesFrom(versions, objects, n)[versions[i].id] == |objects[versions[i].contentSha256]|
    decreases n
  {
    if i < n - 1 {
      SizeOfVersion(versions, objects, n - 1, i);
      IdsDiffer(versions, i, n - 1);
    }
  }

  /** The entry of each version names its object and the object's size. */
  lemma EntriesOverObjects(versions: seq<Version>, objects: map<string, Bytes>)
    requires Ascending(Ids(versions)) && forall i | 0 <= i < |versions| :: versions[i].contentSha256 in objects
    ensures forall i | 0 <= i < |versions| :: versions[i].id in SizesFrom(versions, objects, |versions|)
    ensures var entries := EntriesOf(versions, SizesFrom(versions, objects, |versions|));
            forall i | 0 <= i < |versions| ::
              entries[i] == ObjectEntry(versions[i].contentSha256, |objects[versions[i].contentSha256]|)
  {
    SizesFromCover(versions, objects, |versions|);
    forall i | 0 <= i < |versions|
      ensures SizesFrom(versions, objects, |versions|)[versions[i].id] == |objects[versions[i].contentSha256]|
    {
      SizeOfVersion(versions, objects, |versions|, i);
    }
  }

  predicate Lists(objects: map<string, Bytes>, e: ObjectEntry) { e.sha256 in objects && e.sizeBytes == |objects[e.sha256]| }

  lemma EntriesListObjects(versions: seq<Version>, objects: map<string, Bytes>, entries: seq<ObjectEntry>)
    requires |entries| == |versions| && objects.Keys == ShasTo(versions, |versions|)
    requires forall i | 0 <= i < |versions| :: versions[i].contentSha256 in objects
    requires forall i | 0 <= i < |versions| ::
      entries[i] == ObjectEntry(versions[i].contentSha256, |objects[versions[i].contentSha256]|)
    ensures ByDigest(entries) && forall e :: e in entries <==> Lists(objects, e)
  {
    forall e | Lists(objects, e) ensures e in entries {
      var i :| 0 <= i < |versions| && versions[i].contentSha256 == e.sha256;
      assert entries[i] == e;
    }
  }

  /** The catalog lists every object once, with its size. */
  lemma ExpectedCatalog(spec: PackSpec, versions: seq<Version>, objects: map<string, Bytes>)
    requires Ascending(Ids(versions)) && objects.Keys == ShasTo(versions, |versions|)
    requires forall i | 0 <= i < |versions| :: versions[i].contentSha256 in objects
    ensures var catalog := ExpectedDescriptor(spec, versions, objects).objects;
            Unique(Keys(EntryKey, catalog)) && forall e :: e in catalog <==> Lists(objects, e)
  {
    EntriesOverObjects(versions, objects);
    var entries := EntriesOf(versions, SizesFrom(versions, objects, |versions|));
    EntriesListObjects(versions, objects, entries);
    CatalogOf(entries);
  }

  // ---------- freeze then verify ----------

  /** Objects that freezing stores: digested, accepted images, none of them empty. */
  predicate SoundObjects(codec: Codec, objects: map<string, Bytes>)
  {
    forall d | d in objects :: IsSha256(d) && codec.sha(objects[d]) == d && codec.accepts(objects[d]) && objects[d] != []
  }

  lemma ListedEntriesHold(codec: Codec, manifest: Bytes, objects: map<string, Bytes>, entries: seq<ObjectEntry>)
    requires SoundObjects(codec, objects) && Unique(Keys(EntryKey, entries))
    requires forall e :: e in entries <==> Lists(objects, e)
    ensures EntriesHold(codec, PackTree(manifest, objects), entries, |entries|)
  {
    var t := PackTree(manifest, objects);
    forall i | 0 <= i < |entries| ensures EntryHolds(codec, t, entries[i]) {
      assert entries[i] in entries && Lists(objects, entries[i]);
      ObjectInTree(manifest, objects, entries[i].sha256);
    }
    forall i, j | 0 <= i < j < |entries| ensures entries[i].sha256 != entries[j].sha256 {
      assert Keys(EntryKey, entries)[i] == EntryKey(entries[i]) && Keys(EntryKey, entries)[j] == EntryKey(entries[j]);
    }
  }

  lemma ListedEntriesCover(objects: map<string, Bytes>, entries: seq<ObjectEntry>)
    requires forall e :: e in entries <==> Lists(objects, e)
    ensures Cataloged(entries, |entries|) == objects.Keys
  {
    forall d | d in objects ensures d in Cataloged(entries, |entries|) {
      assert ObjectEntry(d, |objects[d]|) in entries;
    }
    forall i | 0 <= i < |entries| ensures entries[i].sha256 in objects { assert entries[i] in entries; }
  }

  predicate Holds(t: OC.Tree, objects: map<string, Bytes>)
  {
    forall d | d in objects :: ObjectPath(d) in t.files && t.files[ObjectPath(d)] == objects[d]
  }

  lemma CatalogIsStored(t: OC.Tree, objects: map<string, Bytes>, entries: seq<ObjectEntry>)
    requires Cataloged(entries, |entries|) == objects.Keys && Holds(t, objects)
    ensures forall i | 0 <= i < |entries| :: ObjectPath(entries[i].sha256) in t.files
  {
    forall i | 0 <= i < |entries| ensures entries[i].sha256 in objects {
      assert entries[i].sha256 in Cataloged(entries, |entries|);
    }
  }

  lemma SameMap(a: map<string, Bytes>, b: map<string, Bytes>)
    requires a.Keys == b.Keys && forall d | d in b :: a[d] == b[d]
    ensures a == b
  {}

  lemma StoredIsWhatWasWritten(t: OC.Tree, objects: map<string, Bytes>, entries: seq<ObjectEntry>)
    requires Cataloged(entries, |entries|) == objects.Keys && Holds(t, objects)
    requires forall i | 0 <= i < |entries| :: ObjectPath(entries[i].sha256) in t.files
    ensures StoredTo(t, entries, |entries|) == objects
  {
    StoredIsRead(t, entries, |entries|);
    SameMap(StoredTo(t, entries, |entries|), objects);
  }

  lemma WrittenCatalogHolds(codec: Codec, spec: PackSpec, versions: seq<Version>, manifest: Bytes, objects: map<string, Bytes>)
    requires Canonical(versions) && SoundObjects(codec, objects) && objects.Keys == ShasTo(versions, |versions|)
    requires forall i | 0 <= i < |versions| :: versions[i].contentSha256 in objects
    ensures CatalogHolds(codec, spec, versions, PackTree(manifest, objects), manifest, ExpectedDescriptor(spec, versions, objects))
  {
    var d := ExpectedDescriptor(spec, versions, objects);
    ExpectedCatalog(spec, versions, objects);
    ListedEntriesHold(codec, manifest, objects, d.objects);
    ListedEntriesCover(objects, d.objects);
    forall x | x in objects
      ensures ObjectPath(x) in PackTree(manifest, objects).files && PackTree(manifest, objects).files[ObjectPath(x)] == objects[x]
    {
      ObjectInTree(manifest, objects, x);
    }
    CatalogIsStored(PackTree(manifest, objects), objects, d.objects);
    StoredIsWhatWasWritten(PackTree(manifest, objects), objects, d.objects);
    ShaCount(versions, |versions|);
    PackTreeHolds(codec, manifest, objects);
  }

  lemma ImageIsExpected(codec: Codec, spec: PackSpec, versions: seq<Version>, sources: seq<Source>)
    requires Canonical(versions) && Freezable(codec, versions, sources)
    requires forall data | codec.accepts(data) :: data != []
    ensures Sourced(versions, sources)
    ensures var objects := ImageOf(codec, spec, versions, sources).objects;
            && SoundObjects(codec, objects) && objects.Keys == ShasTo(versions, |versions|)
            && (forall i | 0 <= i < |versions| :: versions[i].contentSha256 in objects)
            && DescriptorOf(spec, versions, sources) == ExpectedDescriptor(spec, versions, objects)
  {
    ImageIsSound(codec, spec, versions, sources);
    ShasHold(versions);
    var objects := ImageOf(codec, spec, versions, sources).objects;
    forall i | 0 <= i < |versions| ensures Some(objects[versions[i].contentSha256]) == DataOf(sources, versions[i].id) {
      ObjectsHold(versions, sources, |versions|, i);
    }
    SizesAgree(versions, sources, objects, |versions|);
    SizesCoverVersions(versions, sources);
    forall d | d in objects ensures IsSha256(d) {
      var i :| 0 <= i < |versions| && versions[i].contentSha256 == d;
    }
  }

  lemma PackFromParts(codec: Codec, spec: PackSpec, manifest: Bytes, objects: map<string, Bytes>, d: Descriptor)
    requires ValidPackSpec(spec) && |manifest| <= MAX_MANIFEST_BYTES
    requires manifest == codec.print_(codec.packId(d), d) && codec.parse(manifest) == Some((codec.packId(d), d))
    requires CatalogHolds(codec, spec, ActiveVersions(spec), PackTree(manifest, objects), manifest, d)
    ensures PackHolds(codec, spec, codec.packId(d), PackTree(manifest, objects), Some(codec.packId(d)))
  {
    PackKeys(manifest, objects);
  }

  // ---------- the manifest of a frozen pack is small ----------

  lemma {:induction false} KindsPartition(versions: seq<Version>)
    ensures forall v :: v in OfKind(versions, true) <==> v in versions && v.character
    ensures forall v :: v in OfKind(versions, false) <==> v in versions && !v.character
    ensures |OfKind(versions, true)| + |OfKind(versions, false)| == |versions|
    decreases |versions|
  {
    if versions != [] {
      KindsPartition(versions[..|versions| - 1]);
      assert versions == versions[..|versions| - 1] + [versions[|versions| - 1]];
    }
  }

  lemma {:induction false} DistinctIsShorter(xs: seq<ObjectEntry>)
    ensures |Distinct(xs)| <= |xs|
    decreases |xs|
  {
    if xs != [] { DistinctIsShorter(xs[..|xs| - 1]); }
  }

  lemma CatalogIsShort(entries: seq<ObjectEntry>)
    ensures |SortBy(EntryKey, Distinct(entries))| <= |entries|
  {
    DistinctIsShorter(entries);
    SortKeepsItems(EntryKey, Distinct(entries));
    assert |multiset(SortBy(EntryKey, Distinct(entries)))| == |multiset(Distinct(entries))|;
  }

  lemma BindingsAreSmall(versions: seq<Version>, bindings: seq<BindingEntry>)
    requires |bindings| == |versions| && forall i | 0 <= i < |versions| :: ValidVersion(versions[i])
    requires forall i | 0 <= i < |versions| :: bindings[i] == BindingEntry(versions[i].id, versions[i].contentSha256)
    ensures forall b | b in bindings :: SmallBinding(b)
  {
    forall b | b in bindings ensures SmallBinding(b) {
      var i :| 0 <= i < |bindings| && bindings[i] == b;
      assert ValidVersion(versions[i]);
    }
  }

  lemma ExpectedIsSmall(spec: PackSpec, versions: seq<Version>, objects: map<string, Bytes>)
    requires IsSha256(spec.specSha) && Canonical(versions) && objects.Keys == ShasTo(versions, |versions|)
    requires forall i | 0 <= i < |versions| :: versions[i].contentSha256 in objects
    requires forall d | d in objects :: IsSha256(d) && |objects[d]| <= MAX_MEDIA_BYTES
    ensures var d := ExpectedDescriptor(spec, versions, objects); SmallDescriptor(d) && KindsApart(d)
  {
    var d := ExpectedDescriptor(spec, versions, objects);
    KindsPartition(versions);
    SizesFromCover(versions, objects, |versions|);
    CatalogIsShort(EntriesOf(versions, SizesFrom(versions, objects, |versions|)));
    ExpectedCatalog(spec, versions, objects);
    forall e | e in d.objects ensures SmallEntry(e) { assert Lists(objects, e); }
    BindingsAreSmall(versions, d.bindings);
  }

  // ---------- packs as the program writes them ----------

  /** The manifest is JSON, and the pack id is the digest of the descriptor behind a domain prefix. */
  function JsonCodec(sha: Bytes -> string, accepts: Bytes -> bool): Codec
  {
    Codec(sha, accepts, d => sha(Utf8.Encode(PACK_DOMAIN) + Dump(DescriptorJson(d))),
          (id, d) => PrintManifest(id, d), data => ParseManifest(data))
  }

  /** Digests are lower-case hexadecimal; media files are read only within the byte limit and never empty. */
  ghost predicate Sound(sha: Bytes -> string, accepts: Bytes -> bool)
  {
    (forall data :: IsSha256(sha(data))) && forall data | accepts(data) :: 1 <= |data| <= MAX_MEDIA_BYTES
  }

  /** Small descriptors print within the limit and read back. */
  ghost predicate PrintsAndReads(codec: Codec)
  {
    forall d | SmallDescriptor(d) && KindsApart(d) :: Readable(codec, d)
  }

  predicate Readable(codec: Codec, d: Descriptor)
  {
    var id := codec.packId(d);
    codec.parse(codec.print_(id, d)) == Some((id, d)) && |codec.print_(id, d)| <= MAX_MANIFEST_BYTES
  }

  lemma PackIdIsDigest(sha: Bytes -> string, accepts: Bytes -> bool, d: Descriptor)
    requires forall data :: |sha(data)| == 64
    ensures |JsonCodec(sha, accepts).packId(d)| == 64
  {
    var data := Utf8.Encode(PACK_DOMAIN) + Dump(DescriptorJson(d));
    assert JsonCodec(sha, accepts).packId(d) == sha(data);
  }

  lemma JsonPrintsAndReads(sha: Bytes -> string, accepts: Bytes -> bool, id: string, d: Descriptor)
    ensures JsonCodec(sha, accepts).print_(id, d) == PrintManifest(id, d)
    ensures JsonCodec(sha, accepts).parse(PrintManifest(id, d)) == ParseManifest(PrintManifest(id, d))
  {}

  lemma JsonIsReadable(sha: Bytes -> string, accepts: Bytes -> bool, d: Descriptor)
    requires (forall data :: |sha(data)| == 64) && SmallDescriptor(d) && KindsApart(d)
    ensures Readable(JsonCodec(sha, accepts), d)
  {
    var codec := JsonCodec(sha, accepts);
    PackIdIsDigest(sha, accepts, d);
    var id := codec.packId(d);
    ManifestIsSmall(id, d);
    ManifestReadsBack(id, d);
    JsonPrintsAndReads(sha, accepts, id, d);
  }

  lemma FrozenImageVerifies(codec: Codec, spec: PackSpec, sources: seq<Source>)
    requires PrintsAndReads(codec) && forall data | codec.accepts(data) :: 1 <= |data| <= MAX_MEDIA_BYTES
    requires ValidPackSpec(spec) && Freezable(codec, ActiveVersions(spec), sources)
    ensures Sourced(ActiveVersions(spec), sources) && Canonical(ActiveVersions(spec))
    ensures var image := ImageOf(codec, spec, ActiveVersions(spec), sources);
            PackHolds(codec, spec, image.packId, PackTree(image.manifest, image.objects), Some(image.packId))
  {
    var versions := ActiveVersions(spec);
    ActiveIsCanonical(spec);
    ImageIsExpected(codec, spec, versions, sources);
    var image, d := ImageOf(codec, spec, versions, sources), DescriptorOf(spec, versions, sources);
    ExpectedIsSmall(spec, versions, image.objects);
    assert Readable(codec, d);
    WrittenCatalogHolds(codec, spec, versions, image.manifest, image.objects);
    PackFromParts(codec, spec, image.manifest, image.objects, d);
  }

  /** Whatever can be frozen verifies under its own id, also when versions share a digest. */
  lemma FrozenPackVerifies(sha: Bytes -> string, accepts: Bytes -> bool, spec: PackSpec, sources: seq<Source>)
    requires Sound(sha, accepts) && ValidPackSpec(spec)
    requires Freezable(JsonCodec(sha, accepts), ActiveVersions(spec), sources)
    ensures Sourced(ActiveVersions(spec), sources) && Canonical(ActiveVersions(spec))
    ensures var image := ImageOf(JsonCodec(sha, accepts), spec, ActiveVersions(spec), sources);
            PackHolds(JsonCodec(sha, accepts), spec, image.packId, PackTree(image.manifest, image.objects), Some(image.packId))
  {
    var codec := JsonCodec(sha, accepts);
    forall d | SmallDescriptor(d) && KindsApart(d) ensures Readable(codec, d) { JsonIsReadable(sha, accepts, d); }
    FrozenImageVerifies(codec, spec, sources);
  }

  /** The calls themselves: a pack just created is accepted with the same id and object count. */
  method FreezeThenVerify(sha: Bytes -> string, accepts: Bytes -> bool, spec: PackSpec, sources: seq<Source>, store: PackStore)
    returns (frozen: Result<FrozenPack, PackError>, verified: Result<FrozenPack, PackError>)
    requires Sound(sha, accepts) && ValidPackSpec(spec)
    modifies store
    ensures frozen.Success? && frozen.value.created ==>
      && frozen.value.packId in store.packs && verified == Success(frozen.value.(created := false))
  {
    var codec := JsonCodec(sha, accepts);
    frozen := store.Freeze(codec, spec, sources);
    if frozen.Failure? || !frozen.value.created {
      return frozen, Failure(Incomplete);
    }
    var id := frozen.value.packId;
    FrozenPackVerifies(sha, accepts, spec, sources);
    ImageIsSound(codec, spec, ActiveVersions(spec), sources);
    verified := VerifyPack(codec, spec, id, store.packs[id], Some(id));
  }

  // ---------- verification pins the pack ----------

  lemma VerifiedObjects(codec: Codec, spec: PackSpec, name: string, t: OC.Tree, expected: Option<string>)
    returns (objects: map<string, Bytes>, d: Descriptor)
    requires ValidPackSpec(spec) && PackHolds(codec, spec, name, t, expected)
    ensures objects.Keys == ShasTo(ActiveVersions(spec), |ActiveVersions(spec)|)
    ensures forall x | x in objects :: codec.sha(objects[x]) == x
    ensures forall i | 0 <= i < |ActiveVersions(spec)| :: ActiveVersions(spec)[i].contentSha256 in objects
    ensures d == ExpectedDescriptor(spec, ActiveVersions(spec), objects)
    ensures t == PackTree(codec.print_(codec.packId(d), d), objects)
  {
    var versions, manifest := ActiveVersions(spec), t.files[MANIFEST];
    ActiveIsCanonical(spec);
    d := codec.parse(manifest).value.1;
    StoredIsRead(t, d.objects, |d.objects|);
    objects := StoredTo(t, d.objects, |d.objects|);
    ShasHold(versions);
    ShaCount(versions, |versions|);
    HoldingIsPackTree(codec, t, manifest, objects);
  }

  lemma SameObjects(codec: Codec, left: map<string, Bytes>, right: map<string, Bytes>)
    requires left.Keys == right.Keys && forall x, y | codec.sha(x) == codec.sha(y) :: x == y
    requires (forall d | d in left :: codec.sha(left[d]) == d) && forall d | d in right :: codec.sha(right[d]) == d
    ensures left == right
  {
    forall d | d in left ensures left[d] == right[d] { assert codec.sha(left[d]) == codec.sha(right[d]); }
  }

  /** Two verified packs of one sample are the same tree, if no two byte strings share a digest. */
  lemma VerifiedPacksAgree(codec: Codec, spec: PackSpec, a: string, t: OC.Tree, b: string, u: OC.Tree)
    requires ValidPackSpec(spec) && forall x, y | codec.sha(x) == codec.sha(y) :: x == y
    requires PackHolds(codec, spec, a, t, None) && PackHolds(codec, spec, b, u, None)
    ensures t == u
  {
    var left, d := VerifiedObjects(codec, spec, a, t, None);
    var right, e := VerifiedObjects(codec, spec, b, u, None);
    SameObjects(codec, left, right);
  }
}
