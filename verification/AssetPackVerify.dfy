/** Verification of a stored pack against a sample, and its agreement with freezing. */
module AssetPackVerify {
  import opened Wrappers
  import opened TextFormats
  import opened KeyedSort
  import OC = OutputClosure
  import opened AssetPacks
  import opened AssetPackStore

  // ---------- what a stored pack must satisfy ----------

  /** One object of the catalog: a digest, a size, and an accepted image of both behind it. */
  predicate EntryHolds(codec: Codec, t: OC.Tree, e: ObjectEntry)
  {
    && IsSha256(e.sha256) && e.sizeBytes > 0
    && ObjectPath(e.sha256) in t.files
    && |t.files[ObjectPath(e.sha256)]| == e.sizeBytes && codec.sha(t.files[ObjectPath(e.sha256)]) == e.sha256
    && codec.accepts(t.files[ObjectPath(e.sha256)])
  }

  predicate EntriesHold(codec: Codec, t: OC.Tree, entries: seq<ObjectEntry>, n: nat)
    requires n <= |entries|
  {
    && (forall i | 0 <= i < n :: EntryHolds(codec, t, entries[i]))
    && (forall i, j | 0 <= i < j < n :: entries[i].sha256 != entries[j].sha256)
  }

  function Cataloged(entries: seq<ObjectEntry>, n: nat): set<string>
    requires n <= |entries|
  {
    set i | 0 <= i < n :: entries[i].sha256
  }

  function StoredTo(t: OC.Tree, entries: seq<ObjectEntry>, n: nat): map<string, Bytes>
    requires n <= |entries| && forall i | 0 <= i < n :: ObjectPath(entries[i].sha256) in t.files
  {
    if n == 0 then map[]
    else StoredTo(t, entries, n - 1)[entries[n - 1].sha256 := t.files[ObjectPath(entries[n - 1].sha256)]]
  }

  lemma {:induction false} StoredIsRead(t: OC.Tree, entries: seq<ObjectEntry>, n: nat)
    requires n <= |entries| && forall i | 0 <= i < n :: ObjectPath(entries[i].sha256) in t.files
    ensures StoredTo(t, entries, n).Keys == Cataloged(entries, n)
    ensures forall d | d in StoredTo(t, entries, n) :: ObjectPath(d) in t.files && StoredTo(t, entries, n)[d] == t.files[ObjectPath(d)]
    decreases n
  {
    if n > 0 {
      StoredIsRead(t, entries, n - 1);
      assert Cataloged(entries, n) == Cataloged(entries, n - 1) + {entries[n - 1].sha256};
    }
  }

  /** The sizes the catalog gives the versions, through their digests. */
  function SizesFrom(versions: seq<Version>, objects: map<string, Bytes>, n: nat): map<string, nat>
    requires n <= |versions| && forall i | 0 <= i < n :: versions[i].contentSha256 in objects
  {
    if n == 0 then map[]
    else SizesFrom(versions, objects, n - 1)[versions[n - 1].id := |objects[versions[n - 1].contentSha256]|]
  }

  lemma {:induction false} SizesFromCover(versions: seq<Version>, objects: map<string, Bytes>, n: nat)
    requires n <= |versions| && forall i | 0 <= i < n :: versions[i].contentSha256 in objects
    ensures forall i | 0 <= i < n :: versions[i].id in SizesFrom(versions, objects, n)
    decreases n
  {
    if n > 0 { SizesFromCover(versions, objects, n - 1); }
  }

  /** The descriptor that exactly these objects give the sample. */
  function ExpectedDescriptor(spec: PackSpec, versions: seq<Version>, objects: map<string, Bytes>): Descriptor
    requires forall i | 0 <= i < |versions| :: versions[i].contentSha256 in objects
  {
    SizesFromCover(versions, objects, |versions|);
    ManifestDescriptor(spec.specSha, versions, SizesFrom(versions, objects, |versions|))
  }

  /** The manifest is the canonical print of a descriptor under its own pack id, which is also the directory name. */
  predicate IdentityHolds(codec: Codec, name: string, manifest: Bytes, expected: Option<string>)
  {
    && |manifest| <= MAX_MANIFEST_BYTES && codec.parse(manifest).Some?
    && var (id, d) := codec.parse(manifest).value;
       && id == codec.packId(d) && manifest == codec.print_(id, d) && name == id
       && (expected.None? || expected.value == id)
  }

  /** The catalog closes over the active versions, binds the sample, and is all there is. */
  predicate CatalogHolds(codec: Codec, spec: PackSpec, versions: seq<Version>, t: OC.Tree, manifest: Bytes, d: Descriptor)
  {
    && EntriesHold(codec, t, d.objects, |d.objects|)
    && Cataloged(d.objects, |d.objects|) == ShasTo(versions, |versions|)
    && BindsSample(codec, spec, versions, t, manifest, d)
  }

  predicate BindsSample(codec: Codec, spec: PackSpec, versions: seq<Version>, t: OC.Tree, manifest: Bytes, d: Descriptor)
    requires EntriesHold(codec, t, d.objects, |d.objects|)
    requires Cataloged(d.objects, |d.objects|) == ShasTo(versions, |versions|)
  {
    StoredIsRead(t, d.objects, |d.objects|);
    var objects := StoredTo(t, d.objects, |d.objects|);
    ShasHold(versions);
    d == ExpectedDescriptor(spec, versions, objects) && ExistingHolds(codec, t, manifest, objects)
  }

  lemma ShasHold(versions: seq<Version>)
    ensures forall i | 0 <= i < |versions| :: versions[i].contentSha256 in ShasTo(versions, |versions|)
  {}

  predicate PackHolds(codec: Codec, spec: PackSpec, name: string, t: OC.Tree, expected: Option<string>)
    requires ValidPackSpec(spec)
  {
    && MANIFEST in t.files && IdentityHolds(codec, name, t.files[MANIFEST], expected)
    && CatalogHolds(codec, spec, ActiveVersions(spec), t, t.files[MANIFEST], codec.parse(t.files[MANIFEST]).value.1)
  }

  // ---------- the verifier ----------

  /** Reads the catalog entry by entry. */
  method ReadCatalog(codec: Codec, t: OC.Tree, entries: seq<ObjectEntry>) returns (r: Option<map<string, Bytes>>)
    ensures r.Some? <==> EntriesHold(codec, t, entries, |entries|)
    ensures r.Some? ==> r.value == StoredTo(t, entries, |entries|)
  {
    var objects: map<string, Bytes> := map[];
    for i := 0 to |entries|
      invariant EntriesHold(codec, t, entries, i) && objects == StoredTo(t, entries, i)
    {
      StoredIsRead(t, entries, i);
      var e := entries[i];
      if !EntryHolds(codec, t, e) {
        return None;
      }
      if e.sha256 in objects {
        assert e.sha256 in Cataloged(entries, i);
        return None;
      }
      objects := objects[e.sha256 := t.files[ObjectPath(e.sha256)]];
    }
    return Some(objects);
  }

  /** The whole verification of a stored pack. */
  method VerifyPack(codec: Codec, spec: PackSpec, name: string, t: OC.Tree, expected: Option<string>)
    returns (r: Result<FrozenPack, PackError>)
    requires ValidPackSpec(spec)
    ensures r.Success? <==> PackHolds(codec, spec, name, t, expected)
    ensures r.Success? ==>
      r.value == FrozenPack(name, |ShasTo(ActiveVersions(spec), |ActiveVersions(spec)|)|, false)
  {
    if MANIFEST !in t.files {
      return Failure(BadManifest);
    }
    var manifest := t.files[MANIFEST];
    if !IdentityHolds(codec, name, manifest, expected) {
      return Failure(BadManifest);
    }
    var versions := ActiveVersions(spec);
    var (id, d) := codec.parse(manifest).value;
    var objects := ReadCatalog(codec, t, d.objects);
    if objects.None? {
      return Failure(BadCatalog);
    }
    StoredIsRead(t, d.objects, |d.objects|);
    if objects.value.Keys != ShasTo(versions, |versions|) {
      return Failure(BadCatalog);
    }
    ShasHold(versions);
    if d != ExpectedDescriptor(spec, versions, objects.value) {
      return Failure(BadCatalog);
    }
    var complete := VerifyExisting(codec, t, manifest, objects.value);
    if !complete {
      return Failure(Conflict);
    }
    assert |objects.value| == |objects.value.Keys|;
    return Success(FrozenPack(id, |objects.value|, false));
  }
}
