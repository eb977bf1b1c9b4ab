/** Output trees, the completion catalog, and the closure verifier of a published sample. */
module OutputClosure {
  import opened Wrappers

  /** The components below the root; the root itself is the empty path. */
  type Path = seq<string>

  datatype Tree = Tree(directories: set<Path>, files: map<Path, Bytes>)

  datatype Entry = Entry(path: Path, sha256: string, sizeBytes: nat)

  datatype Catalog = Catalog(complete: bool, entries: seq<Entry>)

  /** How a report prints and reads its catalog, and the file digest, as any functions. */
  datatype Codec = Codec(encode: Catalog -> Bytes, decode: Bytes -> Option<Catalog>, sha: Bytes -> string)

  ghost predicate Injective(codec: Codec) { forall x, y | codec.sha(x) == codec.sha(y) :: x == y }

  const REPORT: Path := ["sample-report.json"]
  const INCOMPLETE: Path := ["INCOMPLETE.json"]
  const MAX_ENTRIES := 256

  /** What a file system can hold: every entry has its parent, and nothing is both file and directory. */
  predicate WellFormed(t: Tree)
  {
    && t.files.Keys !! t.directories
    && forall p | p in t.files.Keys + t.directories :: p != [] && (|p| == 1 || p[..|p| - 1] in t.directories)
  }

  /** The proper ancestors of a path, the root left out. */
  function Ancestors(p: Path): set<Path>
  {
    if |p| <= 1 then {} else Ancestors(p[..|p| - 1]) + {p[..|p| - 1]}
  }

  function AllAncestors(paths: set<Path>): set<Path> { set p, a | p in paths && a in Ancestors(p) :: a }

  /** The paths of the first `n` entries. */
  function PathsTo(entries: seq<Entry>, n: nat): set<Path>
    requires n <= |entries|
  {
    set i | 0 <= i < n :: entries[i].path
  }

  function Paths(entries: seq<Entry>): set<Path> { PathsTo(entries, |entries|) }

  predicate DistinctTo(entries: seq<Entry>, n: nat)
    requires n <= |entries|
  {
    forall i, j | 0 <= i < j < n :: entries[i].path != entries[j].path
  }

  predicate DistinctPaths(entries: seq<Entry>) { DistinctTo(entries, |entries|) }

  /** The file an entry names exists and is the one it describes. */
  predicate EntryHolds(codec: Codec, t: Tree, e: Entry)
  {
    && e.sizeBytes > 0 && e.path != REPORT
    && e.path in t.files && codec.sha(t.files[e.path]) == e.sha256 && |t.files[e.path]| == e.sizeBytes
  }

  predicate CatalogHolds(codec: Codec, t: Tree, c: Catalog)
  {
    && c.complete && |c.entries| <= 255 && DistinctPaths(c.entries)
    && EntriesHold(codec, t, c.entries, |c.entries|)
    && t.files.Keys == Paths(c.entries) + {REPORT}
    && t.directories == AllAncestors(Paths(c.entries))
  }

  /** The tree is exactly what its own report catalogs. */
  predicate ClosureHolds(codec: Codec, t: Tree)
  {
    && |t.files.Keys| + |t.directories| <= MAX_ENTRIES
    && INCOMPLETE !in t.files && REPORT in t.files
    && codec.decode(t.files[REPORT]).Some?
    && CatalogHolds(codec, t, codec.decode(t.files[REPORT]).value)
  }

  lemma PathsOneMore(entries: seq<Entry>, n: nat)
    requires n < |entries|
    ensures PathsTo(entries, n + 1) == PathsTo(entries, n) + {entries[n].path}
    ensures DistinctTo(entries, n + 1) <==> DistinctTo(entries, n) && entries[n].path !in PathsTo(entries, n)
  {}

  lemma AncestorsOneMore(paths: set<Path>, p: Path)
    ensures AllAncestors(paths + {p}) == AllAncestors(paths) + Ancestors(p)
  {}

  /** The parent directories of one path, walked upwards until the root. */
  method AddAncestors(p: Path, known: set<Path>) returns (directories: set<Path>)
    ensures directories == known + Ancestors(p)
  {
    directories := known;
    var parent := if p == [] then p else p[..|p| - 1];
    while parent != []
      invariant p != [] ==> parent <= p && |parent| < |p|
      invariant directories + Ancestors(parent) + (if parent == [] then {} else {parent}) == known + Ancestors(p)
      decreases |parent|
    {
      directories := directories + {parent};
      parent := parent[..|parent| - 1];
    }
  }

  predicate EntriesHold(codec: Codec, t: Tree, entries: seq<Entry>, n: nat)
    requires n <= |entries|
  {
    forall i | 0 <= i < n :: EntryHolds(codec, t, entries[i])
  }

  /** One entry of the catalog, given the paths already met. */
  method CheckEntry(codec: Codec, t: Tree, e: Entry, expected: set<Path>) returns (ok: bool)
    ensures ok <==> e.path !in expected && EntryHolds(codec, t, e)
  {
    if e.sizeBytes <= 0 {
      return false;
    }
    if e.path == REPORT || e.path in expected {
      return false;
    }
    return e.path in t.files && codec.sha(t.files[e.path]) == e.sha256 && |t.files[e.path]| == e.sizeBytes;
  }

  method CheckEntries(codec: Codec, t: Tree, entries: seq<Entry>) returns (ok: bool, expected: set<Path>, directories: set<Path>)
    ensures ok <==> DistinctPaths(entries) && EntriesHold(codec, t, entries, |entries|)
    ensures ok ==> expected == Paths(entries) && directories == AllAncestors(expected)
  {
    expected, directories := {}, {};
    for i := 0 to |entries|
      invariant expected == PathsTo(entries, i) && directories == AllAncestors(expected)
      invariant DistinctTo(entries, i) && EntriesHold(codec, t, entries, i)
    {
      PathsOneMore(entries, i);
      AncestorsOneMore(expected, entries[i].path);
      var holds := CheckEntry(codec, t, entries[i], expected);
      if !holds {
        return false, expected, directories;
      }
      expected := expected + {entries[i].path};
      directories := AddAncestors(entries[i].path, directories);
    }
    return true, expected, directories;
  }

  /** The closure part of the output verifier. */
  method VerifyOutput(codec: Codec, t: Tree) returns (ok: bool)
    ensures ok <==> ClosureHolds(codec, t)
  {
    if |t.files.Keys| + |t.directories| > MAX_ENTRIES {
      return false;
    }
    if INCOMPLETE in t.files || REPORT !in t.files {
      return false;
    }
    var report := codec.decode(t.files[REPORT]);
    if report.None? || !report.value.complete || |report.value.entries| > 255 {
      return false;
    }
    var entriesOk, expected, directories := CheckEntries(codec, t, report.value.entries);
    return entriesOk && t.files.Keys == expected + {REPORT} && t.directories == directories;
  }

  /** The report is the whole tree: equal report bytes mean equal files and equal directories. */
  lemma ReportDeterminesTree(codec: Codec, t: Tree, u: Tree)
    requires Injective(codec) && ClosureHolds(codec, t) && ClosureHolds(codec, u)
    requires t.files[REPORT] == u.files[REPORT]
    ensures t == u
  {
    var entries := codec.decode(t.files[REPORT]).value.entries;
    forall p | p in t.files ensures t.files[p] == u.files[p] {
      if p != REPORT { EntryPinsFile(codec, t, u, entries, p); }
    }
    assert t.files == u.files;
  }

  lemma EntryPinsFile(codec: Codec, t: Tree, u: Tree, entries: seq<Entry>, p: Path)
    requires Injective(codec) && p in Paths(entries)
    requires EntriesHold(codec, t, entries, |entries|) && EntriesHold(codec, u, entries, |entries|)
    ensures p in t.files && p in u.files && t.files[p] == u.files[p]
  {
    var i :| 0 <= i < |entries| && entries[i].path == p;
    assert EntryHolds(codec, t, entries[i]) && EntryHolds(codec, u, entries[i]);
  }

  // ---------- the completed stage ----------

  /** The catalog of a tree: one entry for each file, each file once. */
  predicate Catalogs(codec: Codec, t: Tree, entries: seq<Entry>)
  {
    && DistinctPaths(entries) && Paths(entries) == t.files.Keys
    && forall i | 0 <= i < |entries| ::
         && entries[i].path in t.files && entries[i].sha256 == codec.sha(t.files[entries[i].path])
         && entries[i].sizeBytes == |t.files[entries[i].path]|
  }

  /** The stage after its report was written over the catalog of everything before it. */
  function Sealed(codec: Codec, t: Tree, entries: seq<Entry>): Tree
  {
    t.(files := t.files[REPORT := codec.encode(Catalog(true, entries))])
  }

  predicate NoEmptyFile(t: Tree) { forall p | p in t.files :: t.files[p] != [] }

  lemma CatalogSurvivesSealing(codec: Codec, t: Tree, entries: seq<Entry>)
    requires Catalogs(codec, t, entries) && REPORT !in t.files
    ensures EntriesHold(codec, Sealed(codec, t, entries), entries, |entries|) <==> NoEmptyFile(t)
  {
    var sealed := Sealed(codec, t, entries);
    if NoEmptyFile(t) {
      forall i | 0 <= i < |entries| ensures EntryHolds(codec, sealed, entries[i]) { assert entries[i].path in t.files; }
    }
    if EntriesHold(codec, sealed, entries, |entries|) {
      forall p | p in t.files ensures t.files[p] != [] {
        assert p in Paths(entries);
        var i :| 0 <= i < |entries| && entries[i].path == p;
        assert EntryHolds(codec, sealed, entries[i]);
      }
    }
  }

  /** Report last: the sealed stage is accepted exactly when it is small, has no empty file and no unused directory. */
  lemma SealedStageIsAccepted(codec: Codec, t: Tree, entries: seq<Entry>)
    requires Catalogs(codec, t, entries) && REPORT !in t.files && INCOMPLETE !in t.files
    requires codec.decode(codec.encode(Catalog(true, entries))) == Some(Catalog(true, entries))
    ensures ClosureHolds(codec, Sealed(codec, t, entries))
            <==> && |t.files.Keys| + |t.directories| < MAX_ENTRIES && NoEmptyFile(t)
                 && t.directories == AllAncestors(t.files.Keys)
  {
    var sealed := Sealed(codec, t, entries);
    assert sealed.files.Keys == t.files.Keys + {REPORT};
    assert |sealed.files.Keys| == |t.files.Keys| + 1;
    SizeOfPaths(entries, |entries|);
    CatalogSurvivesSealing(codec, t, entries);
  }

  lemma {:induction false} SizeOfPaths(entries: seq<Entry>, n: nat)
    requires n <= |entries| && DistinctTo(entries, n)
    ensures |PathsTo(entries, n)| == n
    decreases n
  {
    if n > 0 {
      PathsOneMore(entries, n - 1);
      SizeOfPaths(entries, n - 1);
    }
  }
}
