/** The manifest of an asset pack as the bytes it is stored as: printed, read back, and how long it can be. */
module AssetPackManifest {
  import opened Wrappers
  import opened TextFormats
  import opened Numerals
  import opened TextTools
  import opened CanonicalJson
  import Utf8
  import opened AssetPacks

  const SCHEMA_VERSION := "1.0.0"
  const MEDIA_TYPE := "image/png"
  const PROVENANCE := "IMPORTED_APPROVED_MEDIA"
  const DOCUMENT_TYPE := "sdc.creative-asset-pack"
  const PACK_DOMAIN := "sdc:creative-asset-pack:1.0.0\0"

  // ---------- documents, with their keys in order ----------

  function CharacterFields(v: Version): Fields
  {
    Field("approval_ref", Text(v.approvalRef),
    Field("character_id", Text(v.ownerId),
    Field("content_sha256", Text(v.contentSha256),
    Field("id", Text(v.id),
    Field("media_type", Text(MEDIA_TYPE),
    Field("provenance", Text(PROVENANCE),
    Field("schema_version", Text(SCHEMA_VERSION),
    Field("version", Number(v.version),
    Field("visual_description", Text(v.visualDescription), NoFields)))))))))
  }

  function SceneFields(v: Version): Fields
  {
    Field("approval_ref", Text(v.approvalRef),
    Field("content_sha256", Text(v.contentSha256),
    Field("id", Text(v.id),
    Field("media_type", Text(MEDIA_TYPE),
    Field("provenance", Text(PROVENANCE),
    Field("scene_id", Text(v.ownerId),
    Field("schema_version", Text(SCHEMA_VERSION),
    Field("version", Number(v.version),
    Field("visual_description", Text(v.visualDescription), NoFields)))))))))
  }

  function VersionJson(v: Version): Json { Object(if v.character then CharacterFields(v) else SceneFields(v)) }

  function LogicalPath(digest: string): string
  {
    Join("/", ObjectPath(digest))
  }

  function BindingJson(b: BindingEntry): Json
  {
    Object(Field("asset_version_id", Text(b.assetVersionId),
           Field("logical_path", Text(LogicalPath(b.objectSha256)),
           Field("object_sha256", Text(b.objectSha256), NoFields))))
  }

  function EntryJson(e: ObjectEntry): Json
  {
    Object(Field("media_type", Text(MEDIA_TYPE),
           Field("sha256", Text(e.sha256),
           Field("size_bytes", Number(e.sizeBytes), NoFields))))
  }

  function SharedFields(d: Descriptor, afterObjects: Fields): Fields
  {
    Field("bindings", List(ItemsOf(d.bindings, BindingJson)),
    Field("character_versions", List(ItemsOf(d.characterVersions, VersionJson)),
    Field("document_type", Text(DOCUMENT_TYPE),
    Field("objects", List(ItemsOf(d.objects, EntryJson)), afterObjects))))
  }

  function LastFields(d: Descriptor): Fields
  {
    Field("sample_spec_sha256", Text(d.specSha),
    Field("scene_versions", List(ItemsOf(d.sceneVersions, VersionJson)),
    Field("schema_version", Text(SCHEMA_VERSION), NoFields)))
  }

  function DescriptorJson(d: Descriptor): Json { Object(SharedFields(d, LastFields(d))) }

  function ManifestJson(id: string, d: Descriptor): Json
  {
    Object(SharedFields(d, Field("pack_id", Text(id), LastFields(d))))
  }

  function Dump(j: Json): Bytes { Utf8.Encode(Print(j)) }

  function PrintManifest(id: string, d: Descriptor): Bytes { Dump(ManifestJson(id, d)) }

  // ---------- sorted keys ----------

  predicate SortedJson(j: Json)
  {
    match j
    case Text(_) => true
    case Number(_) => true
    case List(items) => SortedItems(items)
    case Object(fields) => SortedFields(fields)
  }

  predicate SortedItems(items: Items) { items.Item? ==> SortedJson(items.head) && SortedItems(items.tail) }

  predicate SortedFields(fields: Fields)
  {
    fields.Field? ==>
      && SortedJson(fields.value) && SortedFields(fields.rest)
      && (fields.rest.Field? ==> Less(fields.key, fields.rest.key))
  }

  lemma {:induction false} SortedList<T>(xs: seq<T>, write: T -> Json)
    requires forall x | x in xs :: SortedJson(write(x))
    ensures SortedItems(ItemsOf(xs, write))
    decreases |xs|
  {
    if xs != [] {
      assert xs[0] in xs;
      SortedList(xs[1..], write);
    }
  }

  /** The first difference decides. */
  lemma {:induction false} LessAt(a: string, b: string, k: nat)
    requires k < |a| && k < |b| && a[..k] == b[..k] && a[k] < b[k]
    ensures Less(a, b)
    decreases k
  {
    if k > 0 {
      assert a[0] == a[..k][0] == b[..k][0] == b[0];
      assert a[1..][..k - 1] == a[..k][1..] && b[1..][..k - 1] == b[..k][1..];
      LessAt(a[1..], b[1..], k - 1);
    }
  }

  /** One more field in front, whose key first differs from the next one at `k`. */
  lemma FieldBefore(key: string, value: Json, rest: Fields, k: nat)
    requires SortedJson(value) && SortedFields(rest)
    requires rest.Field? ==> k < |key| && k < |rest.key| && key[..k] == rest.key[..k] && key[k] < rest.key[k]
    ensures SortedFields(Field(key, value, rest))
  {
    if rest.Field? { LessAt(key, rest.key, k); }
  }

  /** From the media type on, both kinds of version have the same fields but one. */
  lemma VersionKeysAreSorted(v: Version)
    ensures SortedJson(VersionJson(v))
  {
    var f9 := Field("visual_description", Text(v.visualDescription), NoFields);
    FieldBefore("visual_description", Text(v.visualDescription), NoFields, 0);
    FieldBefore("version", Number(v.version), f9, 1);
    var f8 := Field("version", Number(v.version), f9);
    FieldBefore("schema_version", Text(SCHEMA_VERSION), f8, 0);
    var f7 := Field("schema_version", Text(SCHEMA_VERSION), f8);
    if v.character { CharacterKeysAreSorted(v, f7); } else { SceneKeysAreSorted(v, f7); }
  }

  lemma CharacterKeysAreSorted(v: Version, f7: Fields)
    requires SortedFields(f7) && f7.Field? && f7.key == "schema_version" && v.character
    requires VersionJson(v).fields.rest.rest.rest.rest.rest.rest == f7
    ensures SortedJson(VersionJson(v))
  {
    FieldBefore("provenance", Text(PROVENANCE), f7, 0);
    var f6 := Field("provenance", Text(PROVENANCE), f7);
    FieldBefore("media_type", Text(MEDIA_TYPE), f6, 0);
    var f5 := Field("media_type", Text(MEDIA_TYPE), f6);
    FieldBefore("id", Text(v.id), f5, 0);
    var f4 := Field("id", Text(v.id), f5);
    FieldBefore("content_sha256", Text(v.contentSha256), f4, 0);
    var f3 := Field("content_sha256", Text(v.contentSha256), f4);
    FieldBefore("character_id", Text(v.ownerId), f3, 1);
    FieldBefore("approval_ref", Text(v.approvalRef), Field("character_id", Text(v.ownerId), f3), 0);
  }

  lemma SceneKeysAreSorted(v: Version, f7: Fields)
    requires SortedFields(f7) && f7.Field? && f7.key == "schema_version" && !v.character
    requires VersionJson(v).fields.rest.rest.rest.rest.rest.rest == f7
    ensures SortedJson(VersionJson(v))
  {
    FieldBefore("scene_id", Text(v.ownerId), f7, 2);
    var f6 := Field("scene_id", Text(v.ownerId), f7);
    FieldBefore("provenance", Text(PROVENANCE), f6, 0);
    var f5 := Field("provenance", Text(PROVENANCE), f6);
    FieldBefore("media_type", Text(MEDIA_TYPE), f5, 0);
    var f4 := Field("media_type", Text(MEDIA_TYPE), f5);
    FieldBefore("id", Text(v.id), f4, 0);
    var f3 := Field("id", Text(v.id), f4);
    FieldBefore("content_sha256", Text(v.contentSha256), f3, 0);
    FieldBefore("approval_ref", Text(v.approvalRef), Field("content_sha256", Text(v.contentSha256), f3), 0);
  }

  lemma RecordKeysAreSorted(b: BindingEntry, e: ObjectEntry)
    ensures SortedJson(BindingJson(b)) && SortedJson(EntryJson(e))
  {
    FieldBefore("object_sha256", Text(b.objectSha256), NoFields, 0);
    var b3 := Field("object_sha256", Text(b.objectSha256), NoFields);
    FieldBefore("logical_path", Text(LogicalPath(b.objectSha256)), b3, 0);
    var b2 := Field("logical_path", Text(LogicalPath(b.objectSha256)), b3);
    FieldBefore("asset_version_id", Text(b.assetVersionId), b2, 0);
    FieldBefore("size_bytes", Number(e.sizeBytes), NoFields, 0);
    var e3 := Field("size_bytes", Number(e.sizeBytes), NoFields);
    FieldBefore("sha256", Text(e.sha256), e3, 1);
    FieldBefore("media_type", Text(MEDIA_TYPE), Field("sha256", Text(e.sha256), e3), 0);
  }

  lemma SharedKeysAreSorted(d: Descriptor, after: Fields)
    requires SortedFields(after) && after.Field? && after.key != "" && after.key[0] > 'o'
    ensures SortedFields(SharedFields(d, after))
  {
    forall v | v in d.characterVersions ensures SortedJson(VersionJson(v)) { VersionKeysAreSorted(v); }
    forall b | b in d.bindings ensures SortedJson(BindingJson(b)) { RecordKeysAreSorted(b, ObjectEntry("", 0)); }
    forall e | e in d.objects ensures SortedJson(EntryJson(e)) { RecordKeysAreSorted(BindingEntry("", ""), e); }
    SortedList(d.characterVersions, VersionJson);
    SortedList(d.bindings, BindingJson);
    SortedList(d.objects, EntryJson);
    FieldBefore("objects", List(ItemsOf(d.objects, EntryJson)), after, 0);
    var f4 := Field("objects", List(ItemsOf(d.objects, EntryJson)), after);
    FieldBefore("document_type", Text(DOCUMENT_TYPE), f4, 0);
    var f3 := Field("document_type", Text(DOCUMENT_TYPE), f4);
    FieldBefore("character_versions", List(ItemsOf(d.characterVersions, VersionJson)), f3, 0);
    var f2 := Field("character_versions", List(ItemsOf(d.characterVersions, VersionJson)), f3);
    FieldBefore("bindings", List(ItemsOf(d.bindings, BindingJson)), f2, 0);
  }

  /** Every object of the printed documents has its keys in order, as `sort_keys` asks. */
  lemma ManifestKeysAreSorted(id: string, d: Descriptor)
    ensures SortedJson(DescriptorJson(d)) && SortedJson(ManifestJson(id, d))
  {
    forall v | v in d.sceneVersions ensures SortedJson(VersionJson(v)) { VersionKeysAreSorted(v); }
    SortedList(d.sceneVersions, VersionJson);
    FieldBefore("schema_version", Text(SCHEMA_VERSION), NoFields, 0);
    var f8 := Field("schema_version", Text(SCHEMA_VERSION), NoFields);
    FieldBefore("scene_versions", List(ItemsOf(d.sceneVersions, VersionJson)), f8, 2);
    var f7 := Field("scene_versions", List(ItemsOf(d.sceneVersions, VersionJson)), f8);
    FieldBefore("sample_spec_sha256", Text(d.specSha), f7, 1);
    FieldBefore("pack_id", Text(id), LastFields(d), 0);
    SharedKeysAreSorted(d, LastFields(d));
    SharedKeysAreSorted(d, Field("pack_id", Text(id), LastFields(d)));
  }

  // ---------- reading a manifest back ----------

  function CharacterFrom(j: Json): Option<Version>
  {
    match j
    case Object(Field(_, Text(approval), Field(_, Text(owner), Field(_, Text(sha), Field(_, Text(id), Field(_, _,
                Field(_, _, Field(_, _, Field(_, Number(n), Field(_, Text(description), NoFields)))))))))) =>
      var v := Version(id, owner, n, sha, approval, description, true);
      if VersionJson(v) == j then Some(v) else None
    case _ => None
  }

  function SceneFrom(j: Json): Option<Version>
  {
    match j
    case Object(Field(_, Text(approval), Field(_, Text(sha), Field(_, Text(id), Field(_, _, Field(_, _,
                Field(_, Text(owner), Field(_, _, Field(_, Number(n), Field(_, Text(description), NoFields)))))))))) =>
      var v := Version(id, owner, n, sha, approval, description, false);
      if VersionJson(v) == j then Some(v) else None
    case _ => None
  }

  function BindingFrom(j: Json): Option<BindingEntry>
  {
    match j
    case Object(Field(_, Text(id), Field(_, _, Field(_, Text(sha), NoFields)))) =>
      var b := BindingEntry(id, sha);
      if BindingJson(b) == j then Some(b) else None
    case _ => None
  }

  function EntryFrom(j: Json): Option<ObjectEntry>
  {
    match j
    case Object(Field(_, _, Field(_, Text(sha), Field(_, Number(n), NoFields)))) =>
      var e := ObjectEntry(sha, n);
      if EntryJson(e) == j then Some(e) else None
    case _ => None
  }

  function ManifestFrom(j: Json): Option<(string, Descriptor)>
  {
    match j
    case Object(Field(_, List(bindings), Field(_, List(characters), Field(_, _, Field(_, List(objects),
                Field(_, Text(id), Field(_, Text(sha), Field(_, List(scenes), Field(_, _, NoFields))))))))) =>
      var b, c := SeqOf(bindings, BindingFrom), SeqOf(characters, CharacterFrom);
      var o, s := SeqOf(objects, EntryFrom), SeqOf(scenes, SceneFrom);
      if b.Some? && c.Some? && o.Some? && s.Some? then
        var d := Descriptor(sha, c.value, s.value, b.value, o.value);
        if ManifestJson(id, d) == j then Some((id, d)) else None
      else None
    case _ => None
  }

  function ParseManifest(data: Bytes): Option<(string, Descriptor)>
  {
    match Utf8.Decode(data)
    case None => None
    case Some(text) =>
      (match Parse(text)
       case None => None
       case Some(j) => ManifestFrom(j))
  }

  /** Character versions and scene versions are listed apart. */
  predicate KindsApart(d: Descriptor)
  {
    (forall v | v in d.characterVersions :: v.character) && (forall v | v in d.sceneVersions :: !v.character)
  }

  lemma RecordsReadBack(d: Descriptor)
    requires KindsApart(d)
    ensures SeqOf(ItemsOf(d.bindings, BindingJson), BindingFrom) == Some(d.bindings)
    ensures SeqOf(ItemsOf(d.objects, EntryJson), EntryFrom) == Some(d.objects)
    ensures SeqOf(ItemsOf(d.characterVersions, VersionJson), CharacterFrom) == Some(d.characterVersions)
    ensures SeqOf(ItemsOf(d.sceneVersions, VersionJson), SceneFrom) == Some(d.sceneVersions)
  {
    ItemsReadAsWritten(d.bindings, BindingJson, BindingFrom);
    ItemsReadAsWritten(d.objects, EntryJson, EntryFrom);
    ItemsReadAsWritten(d.characterVersions, VersionJson, CharacterFrom);
    ItemsReadAsWritten(d.sceneVersions, VersionJson, SceneFrom);
  }

  lemma ManifestFromJson(id: string, d: Descriptor)
    requires KindsApart(d)
    ensures ManifestFrom(ManifestJson(id, d)) == Some((id, d))
  {
    RecordsReadBack(d);
  }

  /** A printed manifest reads back as the pack id and the descriptor it was printed from. */
  lemma ManifestReadsBack(id: string, d: Descriptor)
    requires KindsApart(d)
    ensures ParseManifest(PrintManifest(id, d)) == Some((id, d))
  {
    var j := ManifestJson(id, d);
    Utf8.EncodedReadsBack(Print(j));
    ParseUndoesPrint(j);
    ManifestFromJson(id, d);
  }

  // ---------- how long a manifest can be ----------

  predicate SmallBinding(b: BindingEntry) { |b.assetVersionId| <= 128 && IsSha256(b.objectSha256) }

  predicate SmallEntry(e: ObjectEntry) { IsSha256(e.sha256) && e.sizeBytes <= MAX_MEDIA_BYTES }

  /** The descriptor of at most four valid versions of readable files. */
  predicate SmallDescriptor(d: Descriptor)
  {
    && IsSha256(d.specSha)
    && |d.characterVersions| + |d.sceneVersions| <= 4 && |d.bindings| <= 4 && |d.objects| <= 4
    && (forall v | v in d.characterVersions :: ValidVersion(v)) && (forall v | v in d.sceneVersions :: ValidVersion(v))
    && (forall b | b in d.bindings :: SmallBinding(b)) && (forall e | e in d.objects :: SmallEntry(e))
  }

  function Ten(k: nat): nat { if k == 0 then 1 else 10 * Ten(k - 1) }

  lemma {:induction false} DecimalWithin(n: nat, k: nat)
    requires 1 <= k && n < Ten(k)
    ensures |Decimal(n)| <= k
    decreases k
  {
    if n >= 10 { DecimalWithin(n / 10, k - 1); }
  }

  const VERSION_WIDTH := 32_000
  const BINDING_WIDTH := 2_000
  const ENTRY_WIDTH := 1_000
  const MANIFEST_WIDTH := 150_000

  /** One more text field in front. */
  lemma TextField(key: string, text: string, rest: Fields)
    ensures FieldsWidth(Field(key, Text(text), rest)) == 6 * |key| + 6 * |text| + 6 + FieldsWidth(rest)
  {}

  lemma VersionWidth(v: Version)
    requires ValidVersion(v)
    ensures Width(VersionJson(v)) <= VERSION_WIDTH
  {
    var f9 := Field("visual_description", Text(v.visualDescription), NoFields);
    var f8 := Field("version", Number(v.version), f9);
    var f7 := Field("schema_version", Text(SCHEMA_VERSION), f8);
    TextField("visual_description", v.visualDescription, NoFields);
    TextField("schema_version", SCHEMA_VERSION, f8);
    assert FieldsWidth(f7) <= 28_700;
    if v.character { CharacterWidth(v, f7); } else { SceneWidth(v, f7); }
  }

  lemma CharacterWidth(v: Version, f7: Fields)
    requires ValidVersion(v) && v.character && FieldsWidth(f7) <= 28_700
    requires VersionJson(v).fields.rest.rest.rest.rest.rest.rest == f7
    ensures Width(VersionJson(v)) <= VERSION_WIDTH
  {
    var f6 := Field("provenance", Text(PROVENANCE), f7);
    TextField("provenance", PROVENANCE, f7);
    var f5 := Field("media_type", Text(MEDIA_TYPE), f6);
    TextField("media_type", MEDIA_TYPE, f6);
    var f4 := Field("id", Text(v.id), f5);
    TextField("id", v.id, f5);
    var f3 := Field("content_sha256", Text(v.contentSha256), f4);
    TextField("content_sha256", v.contentSha256, f4);
    var f2 := Field("character_id", Text(v.ownerId), f3);
    TextField("character_id", v.ownerId, f3);
    TextField("approval_ref", v.approvalRef, f2);
  }

  lemma SceneWidth(v: Version, f7: Fields)
    requires ValidVersion(v) && !v.character && FieldsWidth(f7) <= 28_700
    requires VersionJson(v).fields.rest.rest.rest.rest.rest.rest == f7
    ensures Width(VersionJson(v)) <= VERSION_WIDTH
  {
    var f6 := Field("scene_id", Text(v.ownerId), f7);
    TextField("scene_id", v.ownerId, f7);
    var f5 := Field("provenance", Text(PROVENANCE), f6);
    TextField("provenance", PROVENANCE, f6);
    var f4 := Field("media_type", Text(MEDIA_TYPE), f5);
    TextField("media_type", MEDIA_TYPE, f5);
    var f3 := Field("id", Text(v.id), f4);
    TextField("id", v.id, f4);
    var f2 := Field("content_sha256", Text(v.contentSha256), f3);
    TextField("content_sha256", v.contentSha256, f3);
    TextField("approval_ref", v.approvalRef, f2);
  }

  lemma PathWidth(digest: string)
    requires IsSha256(digest)
    ensures |LogicalPath(digest)| == 75
  {
    var path := ObjectPath(digest);
    assert path[1..][1..] == [digest];
    assert Join("/", path[1..][1..]) == digest;
    assert Join("/", path[1..]) == digest[..2] + "/" + digest;
  }

  lemma BindingWidth(b: BindingEntry)
    requires SmallBinding(b)
    ensures Width(BindingJson(b)) <= BINDING_WIDTH
  {
    PathWidth(b.objectSha256);
    var f3 := Field("object_sha256", Text(b.objectSha256), NoFields);
    TextField("object_sha256", b.objectSha256, NoFields);
    var f2 := Field("logical_path", Text(LogicalPath(b.objectSha256)), f3);
    TextField("logical_path", LogicalPath(b.objectSha256), f3);
    TextField("asset_version_id", b.assetVersionId, f2);
  }

  lemma EntryWidth(e: ObjectEntry)
    requires SmallEntry(e)
    ensures Width(EntryJson(e)) <= ENTRY_WIDTH
  {
    assert Ten(9) == 1_000_000_000;
    DecimalWithin(e.sizeBytes, 9);
    var f3 := Field("size_bytes", Number(e.sizeBytes), NoFields);
    assert FieldsWidth(f3) <= 100;
    TextField("sha256", e.sha256, f3);
    TextField("media_type", MEDIA_TYPE, Field("sha256", Text(e.sha256), f3));
  }

  lemma VersionsWidth(versions: seq<Version>)
    requires forall v | v in versions :: ValidVersion(v)
    ensures ItemsWidth(ItemsOf(versions, VersionJson)) <= |versions| * (VERSION_WIDTH + 1)
  {
    forall v | v in versions ensures Width(VersionJson(v)) <= VERSION_WIDTH { VersionWidth(v); }
    ItemsWidthIsWithin(versions, VersionJson, VERSION_WIDTH);
  }

  lemma CatalogsWidth(d: Descriptor)
    requires SmallDescriptor(d)
    ensures ItemsWidth(ItemsOf(d.bindings, BindingJson)) <= 4 * (BINDING_WIDTH + 1)
    ensures ItemsWidth(ItemsOf(d.objects, EntryJson)) <= 4 * (ENTRY_WIDTH + 1)
  {
    forall b | b in d.bindings ensures Width(BindingJson(b)) <= BINDING_WIDTH { BindingWidth(b); }
    forall e | e in d.objects ensures Width(EntryJson(e)) <= ENTRY_WIDTH { EntryWidth(e); }
    ItemsWidthIsWithin(d.bindings, BindingJson, BINDING_WIDTH);
    ItemsWidthIsWithin(d.objects, EntryJson, ENTRY_WIDTH);
  }

  lemma LastWidth(id: string, d: Descriptor)
    requires SmallDescriptor(d) && |id| <= 64
    ensures FieldsWidth(Field("pack_id", Text(id), LastFields(d)))
            <= ItemsWidth(ItemsOf(d.sceneVersions, VersionJson)) + 1_500
  {
    var f8 := Field("schema_version", Text(SCHEMA_VERSION), NoFields);
    TextField("schema_version", SCHEMA_VERSION, NoFields);
    var f7 := Field("scene_versions", List(ItemsOf(d.sceneVersions, VersionJson)), f8);
    assert FieldsWidth(f7) <= ItemsWidth(ItemsOf(d.sceneVersions, VersionJson)) + 300;
    TextField("sample_spec_sha256", d.specSha, f7);
    TextField("pack_id", id, LastFields(d));
  }

  lemma SharedWidth(d: Descriptor, after: Fields)
    ensures FieldsWidth(SharedFields(d, after)) <=
              ItemsWidth(ItemsOf(d.bindings, BindingJson)) + ItemsWidth(ItemsOf(d.characterVersions, VersionJson))
              + ItemsWidth(ItemsOf(d.objects, EntryJson)) + FieldsWidth(after) + 1_000
  {
    var f4 := Field("objects", List(ItemsOf(d.objects, EntryJson)), after);
    assert FieldsWidth(f4) <= ItemsWidth(ItemsOf(d.objects, EntryJson)) + FieldsWidth(after) + 100;
    var f3 := Field("document_type", Text(DOCUMENT_TYPE), f4);
    TextField("document_type", DOCUMENT_TYPE, f4);
    var f2 := Field("character_versions", List(ItemsOf(d.characterVersions, VersionJson)), f3);
    assert FieldsWidth(f2) <= ItemsWidth(ItemsOf(d.characterVersions, VersionJson)) + FieldsWidth(f3) + 150;
  }

  /** The field bounds of at most four versions keep the manifest far below the limit that verification enforces. */
  lemma ManifestIsSmall(id: string, d: Descriptor)
    requires SmallDescriptor(d) && |id| <= 64
    ensures |PrintManifest(id, d)| <= 4 * MANIFEST_WIDTH < MAX_MANIFEST_BYTES
  {
    var after := Field("pack_id", Text(id), LastFields(d));
    VersionsWidth(d.characterVersions);
    VersionsWidth(d.sceneVersions);
    CatalogsWidth(d);
    LastWidth(id, d);
    SharedWidth(d, after);
    PrintIsWithin(ManifestJson(id, d));
  }
}
