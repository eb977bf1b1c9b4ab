/** The asset pack inside a finished run is the pack that freezing made, so verifying it succeeds. */
module StagePack {
  import opened Wrappers
  import opened OutputClosure
  import opened Publication
  import opened StageRun
  import opened AssetPacks
  import opened AssetPackStore
  import opened AssetPackVerify
  import opened AssetPackAgreement

  // ---------- the part of a tree below a path ----------

  function Below(paths: set<Path>, root: Path): set<Path>
  {
    set p | p in paths && root < p :: p[|root|..]
  }

  function Subtree(t: Tree, root: Path): Tree
  {
    Tree(Below(t.directories, root), map q | q in Below(t.files.Keys, root) :: FileBelow(t, root, q))
  }

  function FileBelow(t: Tree, root: Path, q: Path): Bytes
    requires q in Below(t.files.Keys, root)
  {
    BelowIsThere(t.files.Keys, root, q);
    t.files[root + q]
  }

  lemma BelowIsThere(paths: set<Path>, root: Path, q: Path)
    ensures q in Below(paths, root) <==> q != [] && root + q in paths
  {
    if q in Below(paths, root) {
      var p :| p in paths && root < p && p[|root|..] == q;
      assert p == root + q;
    }
    if q != [] && root + q in paths { assert (root + q)[|root|..] == q; }
  }

  // ---------- the data of a written file ----------

  predicate Holds(files: seq<NewFile>, p: Path, data: Bytes)
  {
    (exists f | f in files :: f.path == p) && forall f | f in files && f.path == p :: f.data == data
  }

  lemma {:induction false} WorkData(t: Tree, files: seq<NewFile>, p: Path, data: Bytes)
    requires Holds(files, p, data)
    ensures p in Run(t, Work(files)).files && Run(t, Work(files)).files[p] == data
    decreases |files|
  {
    var init, last := files[..|files| - 1], files[|files| - 1];
    assert files == init + [last] && last in files;
    WorkSplits(t, init, last);
    WritingRun(Run(t, Work(init)), last);
    if last.path != p {
      var f :| f in files && f.path == p;
      assert f in init;
      WorkData(t, init, p, data);
    }
  }

  lemma FinishedData(c: Contents, p: Path, data: Bytes)
    requires Holds(Written(c), p, data) && p != INCOMPLETE
    ensures p in Finished(c).files && Finished(c).files[p] == data
  {
    var marked := Tree({}, map[INCOMPLETE := c.marker]);
    FinishedSplits(c);
    WorkData(marked, Written(c), p, data);
    RemovingKeepsOthers(Run(marked, Work(Written(c))), INCOMPLETE, p);
  }

  lemma RemovingKeepsOthers(t: Tree, removed: Path, p: Path)
    requires p in t.files && p != removed
    ensures p in Publication.Apply(t, Remove(removed)).files && Publication.Apply(t, Remove(removed)).files[p] == t.files[p]
  {
  }

  // ---------- the paths below the pack ----------

  /** The written objects are those of the map, in any order. */
  ghost predicate Lists(imports: seq<Import>, objects: map<string, Bytes>)
  {
    && (forall o | o in imports :: o.name in objects && o.data == objects[o.name])
    && forall d | d in objects :: exists o | o in imports :: o.name == d
  }

  predicate Elsewhere(files: seq<NewFile>) { forall f | f in files :: f.path != [] && f.path[0] != PACKS }

  lemma ImportsAreElsewhere(c: Contents)
    ensures Elsewhere(Imports(c))
  {
    assert |IMPORTED| == 14 && |PACKS| == 11;
    forall f | f in Imports(c) ensures f.path != [] && f.path[0] == IMPORTED {}
  }

  lemma DocumentsAreElsewhere(c: Contents)
    ensures Elsewhere(Inputs(c)) && Elsewhere(Results(c))
  {
    assert |PACKS| == 11;
  }

  lemma OthersAreElsewhere(c: Contents, f: NewFile)
    requires f in Written(c) && (f.path == [] || f.path[0] == PACKS)
    ensures f in Pack(c)
  {
    ImportsAreElsewhere(c);
    DocumentsAreElsewhere(c);
  }

  lemma PackPath(c: Contents, f: NewFile)
    requires f in Pack(c)
    ensures f == NewFile(PackRoot(c) + MANIFEST, c.packManifest)
            || exists o | o in c.packObjects :: f == NewFile(PackRoot(c) + ObjectPath(o.name), o.data)
  {
    var k :| 0 <= k < |Pack(c)| && Pack(c)[k] == f;
    if k < |c.packObjects| { assert c.packObjects[k] in c.packObjects; }
  }

  lemma ObjectIsWritten(c: Contents, o: Import)
    requires o in c.packObjects
    ensures NewFile(PackRoot(c) + ObjectPath(o.name), o.data) in Written(c)
  {
    var k :| 0 <= k < |c.packObjects| && c.packObjects[k] == o;
    assert Pack(c)[k] == NewFile(PackRoot(c) + ObjectPath(o.name), o.data);
  }

  lemma ManifestIsWritten(c: Contents)
    ensures NewFile(PackRoot(c) + MANIFEST, c.packManifest) in Written(c)
  {
    assert Pack(c)[|c.packObjects|] == NewFile(PackRoot(c) + MANIFEST, c.packManifest);
  }

  lemma RootSplits(c: Contents, q: Path, r: Path)
    requires PackRoot(c) + q == PackRoot(c) + r
    ensures q == r
  {
    assert (PackRoot(c) + q)[2..] == q && (PackRoot(c) + r)[2..] == r;
  }

  /** A written path below the pack is the manifest's or an object's, with that data. */
  lemma WrittenBelowPack(c: Contents, objects: map<string, Bytes>, f: NewFile, q: Path)
    requires Lists(c.packObjects, objects) && f in Written(c) && f.path == PackRoot(c) + q
    ensures (q == MANIFEST && f.data == c.packManifest)
            || exists d | d in objects :: q == ObjectPath(d) && f.data == objects[d]
  {
    OthersAreElsewhere(c, f);
    PackPath(c, f);
    if f.path == PackRoot(c) + MANIFEST && f.data == c.packManifest {
      RootSplits(c, q, MANIFEST);
    } else {
      var o :| o in c.packObjects && f == NewFile(PackRoot(c) + ObjectPath(o.name), o.data);
      RootSplits(c, q, ObjectPath(o.name));
      assert o.name in objects;
    }
  }

  lemma ObjectIsHeld(c: Contents, objects: map<string, Bytes>, d: string)
    requires Lists(c.packObjects, objects) && d in objects
    ensures Holds(Written(c), PackRoot(c) + ObjectPath(d), objects[d])
  {
    var o :| o in c.packObjects && o.name == d;
    ObjectIsWritten(c, o);
    forall f | f in Written(c) && f.path == PackRoot(c) + ObjectPath(d) ensures f.data == objects[d] {
      WrittenBelowPack(c, objects, f, ObjectPath(d));
    }
  }

  lemma ManifestIsHeld(c: Contents, objects: map<string, Bytes>)
    requires Lists(c.packObjects, objects)
    ensures Holds(Written(c), PackRoot(c) + MANIFEST, c.packManifest)
  {
    ManifestIsWritten(c);
    forall f | f in Written(c) && f.path == PackRoot(c) + MANIFEST ensures f.data == c.packManifest {
      WrittenBelowPack(c, objects, f, MANIFEST);
    }
  }

  lemma FilesBelowPack(c: Contents, objects: map<string, Bytes>)
    requires Lists(c.packObjects, objects)
    ensures Below(Finished(c).files.Keys, PackRoot(c)) == {MANIFEST} + ObjectPaths(objects.Keys)
  {
    var keys := Finished(c).files.Keys;
    FinishedIsTidy(c);
    forall q | q in Below(keys, PackRoot(c)) ensures q in {MANIFEST} + ObjectPaths(objects.Keys) {
      BelowIsThere(keys, PackRoot(c), q);
      var f :| f in Written(c) && f.path == PackRoot(c) + q;
      WrittenBelowPack(c, objects, f, q);
    }
    forall q | q in {MANIFEST} + ObjectPaths(objects.Keys) ensures q in Below(keys, PackRoot(c)) {
      if q == MANIFEST {
        ManifestIsWritten(c);
      } else {
        var d :| d in objects.Keys && q == ObjectPath(d);
        ObjectIsHeld(c, objects, d);
      }
      BelowIsThere(keys, PackRoot(c), q);
    }
  }

  lemma AncestorsBelow(root: Path, q: Path, a: Path)
    requires a != []
    ensures root + a in Ancestors(root + q) <==> 0 < |a| < |q| && a == q[..|a|]
  {
    AncestorsArePrefixes(root + q, root + a);
    if |a| <= |q| { assert (root + q)[..|root + a|] == root + q[..|a|]; }
    if |a| <= |q| && root + a == (root + q)[..|root + a|] { assert (root + a)[|root|..] == a; }
  }

  lemma ObjectAncestors(objects: map<string, Bytes>, q: Path, a: Path)
    requires q in {MANIFEST} + ObjectPaths(objects.Keys) && 0 < |a| < |q| && a == q[..|a|]
    ensures a in ObjectDirectories(objects.Keys)
  {
    var d :| d in objects.Keys && q == ObjectPath(d);
    assert q[..1] == [OBJECTS] && q[..2] == Bucket(d);
  }

  lemma DirectoryOfObject(objects: map<string, Bytes>, a: Path) returns (d: string)
    requires a in ObjectDirectories(objects.Keys)
    ensures d in objects && 0 < |a| < |ObjectPath(d)| && a == ObjectPath(d)[..|a|]
  {
    if a == [OBJECTS] {
      d :| d in objects.Keys;
    } else {
      d :| d in objects.Keys && a == Bucket(d);
    }
  }

  lemma PrefixSplits(p: Path, root: Path, a: Path)
    requires |root + a| < |p| && root + a == p[..|root + a|]
    ensures p == root + p[|root|..] && |a| < |p[|root|..]|
  {
    assert root == (root + a)[..|root|] == p[..|root|];
  }

  predicate StrictPrefix(a: Path, q: Path) { 0 < |a| < |q| && a == q[..|a|] }

  lemma AncestorOfSomeBelow(keys: set<Path>, root: Path, a: Path) returns (q: Path)
    requires a != [] && root + a in AllAncestors(keys)
    ensures q in Below(keys, root) && StrictPrefix(a, q)
  {
    var p :| p in keys && root + a in Ancestors(p);
    AncestorsArePrefixes(p, root + a);
    PrefixSplits(p, root, a);
    q := p[|root|..];
    BelowIsThere(keys, root, q);
    AncestorsBelow(root, q, a);
  }

  lemma SomeBelowHasAncestor(keys: set<Path>, root: Path, a: Path, q: Path)
    requires q in Below(keys, root) && StrictPrefix(a, q)
    ensures root + a in AllAncestors(keys)
  {
    BelowIsThere(keys, root, q);
    AncestorsBelow(root, q, a);
  }

  lemma DirectoryBelowPack(c: Contents, objects: map<string, Bytes>, a: Path)
    requires Lists(c.packObjects, objects) && objects.Keys != {} && a != []
    ensures PackRoot(c) + a in Finished(c).directories <==> a in ObjectDirectories(objects.Keys)
  {
    var keys, root := Finished(c).files.Keys, PackRoot(c);
    FinishedIsTidy(c);
    FilesBelowPack(c, objects);
    if root + a in AllAncestors(keys) {
      var q := AncestorOfSomeBelow(keys, root, a);
      ObjectAncestors(objects, q, a);
    }
    if a in ObjectDirectories(objects.Keys) {
      var d := DirectoryOfObject(objects, a);
      SomeBelowHasAncestor(keys, root, a, ObjectPath(d));
    }
  }

  /** What a finished run holds below its pack is the tree of the pack. */
  lemma PackSubtree(c: Contents, objects: map<string, Bytes>)
    requires Lists(c.packObjects, objects) && objects.Keys != {}
    ensures Subtree(Finished(c), PackRoot(c)) == PackTree(c.packManifest, objects)
  {
    var t, u := Subtree(Finished(c), PackRoot(c)), PackTree(c.packManifest, objects);
    FilesBelowPack(c, objects);
    PackKeys(c.packManifest, objects);
    forall q | q in u.files ensures q in t.files && t.files[q] == u.files[q] { FileOfPack(c, objects, q); }
    assert t.files == u.files;
    forall a ensures a in t.directories <==> a in u.directories {
      BelowIsThere(Finished(c).directories, PackRoot(c), a);
      if a != [] { DirectoryBelowPack(c, objects, a); }
    }
  }

  lemma FileOfPack(c: Contents, objects: map<string, Bytes>, q: Path)
    requires Lists(c.packObjects, objects) && q in PackTree(c.packManifest, objects).files
    ensures q in Subtree(Finished(c), PackRoot(c)).files
    ensures Subtree(Finished(c), PackRoot(c)).files[q] == PackTree(c.packManifest, objects).files[q]
  {
    FilesBelowPack(c, objects);
    PackKeys(c.packManifest, objects);
    if q == MANIFEST {
      ManifestIsHeld(c, objects);
      FinishedData(c, PackRoot(c) + MANIFEST, c.packManifest);
    } else {
      var d :| d in objects.Keys && q == ObjectPath(d);
      ObjectInTree(c.packManifest, objects, d);
      ObjectIsHeld(c, objects, d);
      FinishedData(c, PackRoot(c) + ObjectPath(d), objects[d]);
    }
  }

  // ---------- verifying it ----------

  /** The run carries the pack that freezing makes of its sources. */
  ghost predicate CarriesPack(c: Contents, image: Image)
  {
    c.packId == image.packId && c.packManifest == image.manifest && Lists(c.packObjects, image.objects)
  }

  lemma ReportIsElsewhere(t: Tree, report: Bytes, root: Path)
    requires |root| == 2
    ensures Subtree(t.(files := t.files[REPORT := report]), root) == Subtree(t, root)
  {
    var u := t.(files := t.files[REPORT := report]);
    assert Below(u.files.Keys, root) == Below(t.files.Keys, root);
    forall q | q in Below(t.files.Keys, root) ensures FileBelow(u, root, q) == FileBelow(t, root, q) {
      BelowIsThere(t.files.Keys, root, q);
    }
  }

  lemma RunEndsWithReport(c: Contents, report: Bytes)
    ensures var t := Finished(c);
            Run(Tree({}, map[]), Steps(c, report)) == t.(files := t.files[REPORT := report])
  {
    RunConcat(Tree({}, map[]), BeforeReport(c), [File(REPORT, report)]);
    RunOne(Finished(c), File(REPORT, report));
  }

  /** The pack inside the output of a run that reached its end passes verification against the sample, under its own id. */
  lemma FinishedRunHoldsItsPack(
    sha: Bytes -> string, accepts: Bytes -> bool, spec: PackSpec, sources: seq<Source>, c: Contents, report: Bytes)
    requires Sound(sha, accepts) && ValidPackSpec(spec)
    requires Freezable(JsonCodec(sha, accepts), ActiveVersions(spec), sources)
    requires Sourced(ActiveVersions(spec), sources) && Canonical(ActiveVersions(spec))
    requires CarriesPack(c, ImageOf(JsonCodec(sha, accepts), spec, ActiveVersions(spec), sources))
    ensures PackHolds(JsonCodec(sha, accepts), spec, c.packId,
                      Subtree(Run(Tree({}, map[]), Steps(c, report)), PackRoot(c)), Some(c.packId))
  {
    var codec := JsonCodec(sha, accepts);
    var image := ImageOf(codec, spec, ActiveVersions(spec), sources);
    ImageIsSound(codec, spec, ActiveVersions(spec), sources);
    PackSubtree(c, image.objects);
    RunEndsWithReport(c, report);
    ReportIsElsewhere(Finished(c), report, PackRoot(c));
    FrozenPackVerifies(sha, accepts, spec, sources);
  }
}
