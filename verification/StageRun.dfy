/** The steps of one sample run in its staging directory, in the order the run takes them. */
module StageRun {
  import opened Wrappers
  import opened OutputClosure
  import opened Publication
  import AP = AssetPacks

  datatype Import = Import(name: string, data: Bytes)

  /** What a run writes, whatever computed it: frozen imports, the asset pack, and the result documents. */
  datatype Contents = Contents(
    marker: Bytes, shots: seq<Import>, voices: seq<Import>, bgm: Option<Import>, assets: seq<Import>,
    sampleSpec: Bytes, compilation: Bytes, importManifest: Bytes,
    packId: string, packObjects: seq<Import>, packManifest: Bytes,
    subtitles: Bytes, audioMaster: Bytes, finalMedia: Bytes, assemblyReceipt: Bytes, releaseManifest: Bytes,
    technicalQc: Bytes, metrics: Bytes, importEvidence: Bytes)

  datatype NewFile = NewFile(path: Path, data: Bytes)

  const IMPORTED := "imported-media"
  const PACKS := "asset-packs"

  function Frozen(kind: string, imports: seq<Import>): seq<NewFile>
  {
    seq(|imports|, i requires 0 <= i < |imports| => NewFile([IMPORTED, kind, imports[i].name], imports[i].data))
  }

  function PackRoot(c: Contents): Path { [PACKS, c.packId] }

  function Pack(c: Contents): seq<NewFile>
  {
    seq(|c.packObjects|, i requires 0 <= i < |c.packObjects| =>
      NewFile(PackRoot(c) + AP.ObjectPath(c.packObjects[i].name), c.packObjects[i].data))
    + [NewFile(PackRoot(c) + AP.MANIFEST, c.packManifest)]
  }

  function Imports(c: Contents): seq<NewFile>
  {
    Frozen("shots", c.shots) + Frozen("voices", c.voices)
    + Frozen("bgm", if c.bgm.Some? then [c.bgm.value] else []) + Frozen("assets", c.assets)
  }

  function Inputs(c: Contents): seq<NewFile>
  {
    [NewFile(["sample-spec.json"], c.sampleSpec), NewFile(["compilation.json"], c.compilation),
     NewFile(["import-manifest.json"], c.importManifest)]
  }

  function Results(c: Contents): seq<NewFile>
  {
    [NewFile(["subtitles.srt"], c.subtitles), NewFile(["audio-master.wav"], c.audioMaster),
     NewFile(["final.mp4"], c.finalMedia), NewFile(["assembly-receipt.json"], c.assemblyReceipt),
     NewFile(["release-manifest.json"], c.releaseManifest), NewFile(["creative-technical-qc.json"], c.technicalQc),
     NewFile(["metrics.json"], c.metrics), NewFile(["import-evidence.json"], c.importEvidence)]
  }

  /** Every file between the marker and its removal, in order. */
  function Written(c: Contents): seq<NewFile> { Imports(c) + Inputs(c) + Pack(c) + Results(c) }

  /** A new file comes after the directories above it. */
  function Parents(p: Path): seq<Step>
  {
    if |p| <= 1 then [] else Parents(p[..|p| - 1]) + [Directory(p[..|p| - 1])]
  }

  function Writing(file: NewFile): seq<Step> { Parents(file.path) + [File(file.path, file.data)] }

  function Work(files: seq<NewFile>): seq<Step>
  {
    if files == [] then [] else Work(files[..|files| - 1]) + Writing(files[|files| - 1])
  }

  /** Everything before the report. */
  function BeforeReport(c: Contents): seq<Step>
  {
    [File(INCOMPLETE, c.marker)] + Work(Written(c)) + [Remove(INCOMPLETE)]
  }

  function Steps(c: Contents, report: Bytes): seq<Step> { BeforeReport(c) + [File(REPORT, report)] }

  // ---------- the order of the steps ----------

  /** Below neither of the two names that mark a stage. */
  predicate Ordinary(p: Path) { p != [] && p[0] != REPORT[0] && p[0] != INCOMPLETE[0] }

  predicate OrdinaryFiles(files: seq<NewFile>) { forall f | f in files :: Ordinary(f.path) }

  lemma OtherLength(name: string)
    requires |name| != 15 && |name| != 18
    ensures Ordinary([name]) && forall p: Path | p != [] && p[0] == name :: Ordinary(p)
  {
    assert |"INCOMPLETE.json"| == 15 && |"sample-report.json"| == 18;
  }

  lemma ImportsAreOrdinary(c: Contents)
    ensures OrdinaryFiles(Imports(c)) && OrdinaryFiles(Pack(c))
  {
    OtherLength(IMPORTED);
    OtherLength(PACKS);
    forall f | f in Imports(c) ensures f.path != [] && f.path[0] == IMPORTED {}
    forall f | f in Pack(c) ensures f.path != [] && f.path[0] == PACKS {}
  }

  lemma DocumentsAreOrdinary(c: Contents)
    ensures OrdinaryFiles(Inputs(c)) && OrdinaryFiles(Results(c))
  {
    OtherLength("sample-spec.json");
    OtherLength("compilation.json");
    OtherLength("import-manifest.json");
    OtherLength("subtitles.srt");
    OtherLength("audio-master.wav");
    OtherLength("final.mp4");
    OtherLength("assembly-receipt.json");
    OtherLength("release-manifest.json");
    OtherLength("creative-technical-qc.json");
    OtherLength("metrics.json");
    OtherLength("import-evidence.json");
  }

  predicate OrdinarySteps(steps: seq<Step>)
  {
    forall s | s in steps :: Ordinary(s.path) && !s.Remove?
  }

  lemma {:induction false} ParentsAreOrdinary(p: Path)
    requires Ordinary(p)
    ensures OrdinarySteps(Parents(p))
    decreases |p|
  {
    if |p| > 1 { ParentsAreOrdinary(p[..|p| - 1]); }
  }

  lemma {:induction false} WorkIsOrdinary(files: seq<NewFile>)
    requires OrdinaryFiles(files)
    ensures OrdinarySteps(Work(files))
    decreases |files|
  {
    if files != [] {
      WorkIsOrdinary(files[..|files| - 1]);
      assert files[|files| - 1] in files;
      ParentsAreOrdinary(files[|files| - 1].path);
    }
  }

  lemma WrittenIsOrdinary(c: Contents)
    ensures OrdinaryFiles(Written(c)) && OrdinarySteps(Work(Written(c)))
  {
    ImportsAreOrdinary(c);
    DocumentsAreOrdinary(c);
    WorkIsOrdinary(Written(c));
  }

  /** The run marks its stage first, writes the report last, and touches neither name in between. */
  lemma RunIsMarked(c: Contents, report: Bytes)
    ensures MarkedWork(Steps(c, report))
  {
    WrittenIsOrdinary(c);
    var steps, work := Steps(c, report), Work(Written(c));
    assert steps == [File(INCOMPLETE, c.marker)] + work + [Remove(INCOMPLETE), File(REPORT, report)];
    forall i | 0 < i < |steps| - 2 ensures steps[i].path != REPORT && steps[i].path != INCOMPLETE {
      assert steps[i] == work[i - 1] && work[i - 1] in work;
    }
    assert |steps| >= 3 by { assert |work| >= 1; }
  }

  /** Wherever a run is cut off, what it leaves behind does not verify. */
  lemma CutOffRunNeverVerifies(codec: Codec, c: Contents, report: Bytes, n: nat)
    requires n < |Steps(c, report)|
    ensures !ClosureHolds(codec, Run(Tree({}, map[]), Steps(c, report)[..n]))
  {
    RunIsMarked(c, report);
    UnfinishedStageNeverVerifies(codec, Steps(c, report), n);
  }

  // ---------- a run that reaches its end ----------

  lemma {:induction false} RunConcat(t: Tree, a: seq<Step>, b: seq<Step>)
    ensures Run(t, a + b) == Run(Run(t, a), b)
    decreases |b|
  {
    if b == [] {
      assert a + b == a;
    } else {
      assert (a + b)[..|a + b| - 1] == a + b[..|b| - 1];
      RunConcat(t, a, b[..|b| - 1]);
    }
  }

  lemma RunOne(t: Tree, step: Step)
    ensures Run(t, [step]) == Publication.Apply(t, step)
  {
    assert [step][..0] == [] && Run(t, []) == t;
  }

  lemma {:induction false} ParentsRun(t: Tree, p: Path)
    ensures Run(t, Parents(p)) == Tree(t.directories + Ancestors(p), t.files)
    decreases |p|
  {
    if |p| > 1 {
      ParentsRun(t, p[..|p| - 1]);
      RunConcat(t, Parents(p[..|p| - 1]), [Directory(p[..|p| - 1])]);
      RunOne(Run(t, Parents(p[..|p| - 1])), Directory(p[..|p| - 1]));
    }
  }

  lemma WritingRun(t: Tree, f: NewFile)
    ensures Run(t, Writing(f)) == Tree(t.directories + Ancestors(f.path), t.files[f.path := f.data])
  {
    ParentsRun(t, f.path);
    RunConcat(t, Parents(f.path), [File(f.path, f.data)]);
    RunOne(Run(t, Parents(f.path)), File(f.path, f.data));
  }

  /** Every directory is there for a file. */
  predicate Tidy(t: Tree) { t.directories == AllAncestors(t.files.Keys) }

  function PathsOf(files: seq<NewFile>): set<Path> { set f | f in files :: f.path }

  lemma WritingStaysTidy(t: Tree, f: NewFile)
    requires Tidy(t)
    ensures Tidy(Run(t, Writing(f))) && Run(t, Writing(f)).files.Keys == t.files.Keys + {f.path}
  {
    WritingRun(t, f);
    AncestorsOneMore(t.files.Keys, f.path);
  }

  lemma PathsOneMoreFile(init: seq<NewFile>, last: NewFile)
    ensures PathsOf(init + [last]) == PathsOf(init) + {last.path}
  {}

  lemma {:induction false} WorkRun(t: Tree, files: seq<NewFile>)
    requires Tidy(t)
    ensures Tidy(Run(t, Work(files))) && Run(t, Work(files)).files.Keys == t.files.Keys + PathsOf(files)
    decreases |files|
  {
    if files == [] {
      assert Run(t, []) == t && PathsOf(files) == {};
    } else {
      var init, last := files[..|files| - 1], files[|files| - 1];
      assert files == init + [last];
      WorkRun(t, init);
      WorkSplits(t, init, last);
      WritingStaysTidy(Run(t, Work(init)), last);
      PathsOneMoreFile(init, last);
    }
  }

  lemma WorkSplits(t: Tree, init: seq<NewFile>, last: NewFile)
    ensures Run(t, Work(init + [last])) == Run(Run(t, Work(init)), Writing(last))
  {
    assert (init + [last])[..|init|] == init;
    RunConcat(t, Work(init), Writing(last));
  }

  /** The stage just before its report. */
  function Finished(c: Contents): Tree { Run(Tree({}, map[]), BeforeReport(c)) }

  lemma FinishedSplits(c: Contents)
    ensures Finished(c) == Publication.Apply(Run(Tree({}, map[INCOMPLETE := c.marker]), Work(Written(c))), Remove(INCOMPLETE))
  {
    var empty, work := Tree({}, map[]), Work(Written(c));
    RunConcat(empty, [File(INCOMPLETE, c.marker)] + work, [Remove(INCOMPLETE)]);
    RunConcat(empty, [File(INCOMPLETE, c.marker)], work);
    RunOne(empty, File(INCOMPLETE, c.marker));
    RunOne(Run(empty, [File(INCOMPLETE, c.marker)] + work), Remove(INCOMPLETE));
  }

  lemma RemovingTopFile(t: Tree, p: Path)
    requires Tidy(t) && |p| == 1 && p in t.files
    ensures Tidy(Publication.Apply(t, Remove(p)))
  {
    AncestorsOneMore(t.files.Keys - {p}, p);
    assert t.files.Keys - {p} + {p} == t.files.Keys;
  }

  lemma FinishedIsTidy(c: Contents)
    ensures Tidy(Finished(c)) && Finished(c).files.Keys == PathsOf(Written(c))
  {
    var marked := Tree({}, map[INCOMPLETE := c.marker]);
    FinishedSplits(c);
    WorkRun(marked, Written(c));
    RemovingTopFile(Run(marked, Work(Written(c))), INCOMPLETE);
    WrittenIsOrdinary(c);
    assert INCOMPLETE !in PathsOf(Written(c));
  }

  /** The sealed stage is what the whole run leaves. */
  lemma RunSealsItsStage(codec: Codec, c: Contents, entries: seq<Entry>)
    ensures Run(Tree({}, map[]), Steps(c, codec.encode(Catalog(true, entries)))) == Sealed(codec, Finished(c), entries)
  {
    var report := codec.encode(Catalog(true, entries));
    RunConcat(Tree({}, map[]), BeforeReport(c), [File(REPORT, report)]);
    RunOne(Finished(c), File(REPORT, report));
  }

  /** A run that reaches its end leaves a stage that verifies exactly when it is small and none of its files is empty. */
  lemma FinishedRunIsAccepted(codec: Codec, c: Contents, entries: seq<Entry>)
    requires Catalogs(codec, Finished(c), entries)
    requires codec.decode(codec.encode(Catalog(true, entries))) == Some(Catalog(true, entries))
    ensures ClosureHolds(codec, Run(Tree({}, map[]), Steps(c, codec.encode(Catalog(true, entries)))))
            <==> NoEmptyFile(Finished(c)) && |Finished(c).files.Keys| + |Finished(c).directories| < MAX_ENTRIES
  {
    FinishedIsTidy(c);
    WrittenIsOrdinary(c);
    assert REPORT !in PathsOf(Written(c)) && INCOMPLETE !in PathsOf(Written(c));
    RunSealsItsStage(codec, c, entries);
    SealedStageIsAccepted(codec, Finished(c), entries);
  }

  // ---------- publishing it ----------

  lemma {:induction false} AncestorsArePrefixes(p: Path, a: Path)
    ensures a in Ancestors(p) <==> 0 < |a| < |p| && a == p[..|a|]
    decreases |p|
  {
    if |p| > 1 { AncestorsArePrefixes(p[..|p| - 1], a); }
  }

  /** The shapes of the paths a run writes. */
  predicate Shaped(p: Path)
  {
    || (|p| == 1 && p[0] != IMPORTED && p[0] != PACKS)
    || (|p| == 3 && p[0] == IMPORTED)
    || (|p| == 3 && p[0] == PACKS && p[2] == AP.MANIFEST[0])
    || (|p| == 5 && p[0] == PACKS && p[2] == AP.OBJECTS)
  }

  predicate ShapedFiles(files: seq<NewFile>) { forall f | f in files :: Shaped(f.path) }

  lemma ShapedTogether(a: seq<NewFile>, b: seq<NewFile>)
    requires ShapedFiles(a) && ShapedFiles(b)
    ensures ShapedFiles(a + b)
  {}

  lemma FrozenIsShaped(kind: string, imports: seq<Import>)
    ensures ShapedFiles(Frozen(kind, imports))
  {}

  lemma ImportsAreShaped(c: Contents)
    ensures ShapedFiles(Imports(c))
  {
    var bgm := if c.bgm.Some? then [c.bgm.value] else [];
    FrozenIsShaped("shots", c.shots);
    FrozenIsShaped("voices", c.voices);
    FrozenIsShaped("bgm", bgm);
    FrozenIsShaped("assets", c.assets);
    ShapedTogether(Frozen("shots", c.shots), Frozen("voices", c.voices));
    ShapedTogether(Frozen("shots", c.shots) + Frozen("voices", c.voices), Frozen("bgm", bgm));
    ShapedTogether(Frozen("shots", c.shots) + Frozen("voices", c.voices) + Frozen("bgm", bgm), Frozen("assets", c.assets));
  }

  lemma PackIsShaped(c: Contents)
    ensures ShapedFiles(Pack(c))
  {}

  lemma DocumentsAreShaped(c: Contents)
    ensures ShapedFiles(Inputs(c)) && ShapedFiles(Results(c))
  {
    assert |IMPORTED| == 14 && |PACKS| == 11;
  }

  lemma WrittenIsShaped(c: Contents)
    ensures ShapedFiles(Written(c))
  {
    ImportsAreShaped(c);
    PackIsShaped(c);
    DocumentsAreShaped(c);
    ShapedTogether(Imports(c), Inputs(c));
    ShapedTogether(Imports(c) + Inputs(c), Pack(c));
    ShapedTogether(Imports(c) + Inputs(c) + Pack(c), Results(c));
  }

  lemma ShapedIsNoAncestor(p: Path, q: Path)
    requires Shaped(p) && Shaped(q)
    ensures p !in Ancestors(q)
  {
    AncestorsArePrefixes(q, p);
    assert IMPORTED != PACKS by { assert |IMPORTED| != |PACKS|; }
    assert "asset-pack.json" != "objects" by { assert |"asset-pack.json"| != |"objects"|; }
  }

  lemma ReportIsShaped()
    ensures Shaped(REPORT)
  {
    assert |IMPORTED| == 14 && |PACKS| == 11 && |"sample-report.json"| == 18;
  }

  /** With paths of these shapes, every entry has its parent and nothing is both a file and a directory. */
  lemma ShapedIsWellFormed(directories: set<Path>, files: map<Path, Bytes>, paths: set<Path>)
    requires directories == AllAncestors(paths) && paths <= files.Keys && (forall p | p in files :: Shaped(p))
    requires forall p | p in files.Keys - paths :: |p| == 1
    ensures WellFormed(Tree(directories, files))
  {
    forall p | p in files ensures p !in directories && (|p| > 1 ==> p[..|p| - 1] in directories) {
      forall q | q in paths ensures p !in Ancestors(q) { ShapedIsNoAncestor(p, q); }
      AncestorsArePrefixes(p, p[..|p| - 1]);
    }
    forall d | d in directories ensures d != [] && (|d| > 1 ==> d[..|d| - 1] in directories) {
      var q :| q in paths && d in Ancestors(q);
      AncestorsArePrefixes(q, d);
      AncestorsArePrefixes(q, d[..|d| - 1]);
      assert |d| > 1 ==> d[..|d| - 1] == q[..|d| - 1];
    }
  }

  lemma SealedIsWellFormed(codec: Codec, c: Contents, entries: seq<Entry>)
    ensures WellFormed(Sealed(codec, Finished(c), entries))
  {
    var t := Sealed(codec, Finished(c), entries);
    FinishedIsTidy(c);
    WrittenIsShaped(c);
    ReportIsShaped();
    forall p | p in t.files ensures Shaped(p) {
      if p != REPORT { assert p in PathsOf(Written(c)); }
    }
    ShapedIsWellFormed(t.directories, t.files, Finished(c).files.Keys);
  }

  /** The end of a run: publication succeeds exactly for a free name and a small stage without empty files. */
  method PublishFinishedRun(codec: Codec, c: Contents, entries: seq<Entry>, target: TargetDirectory) returns (ok: bool)
    requires Catalogs(codec, Finished(c), entries) && target.trace == []
    requires codec.decode(codec.encode(Catalog(true, entries))) == Some(Catalog(true, entries))
    modifies target
    ensures ok <==> && old(target.tree).None? && NoEmptyFile(Finished(c))
                    && |Finished(c).files.Keys| + |Finished(c).directories| < MAX_ENTRIES
    ensures ok ==> target.tree == Some(Run(Tree({}, map[]), Steps(c, codec.encode(Catalog(true, entries)))))
    ensures ReportLast(target.trace, Run(Tree({}, map[]), Steps(c, codec.encode(Catalog(true, entries)))))
  {
    FinishedRunIsAccepted(codec, c, entries);
    RunSealsItsStage(codec, c, entries);
    SealedIsWellFormed(codec, c, entries);
    ok := PublishCompletedStage(codec, Sealed(codec, Finished(c), entries), target);
  }
}
