/** Report-last publication of a completed stage into a new directory. */
module Publication {
  import opened Wrappers
  import opened OutputClosure

  // ---------- single file-system steps ----------

  predicate HasRoom(t: Tree, p: Path)
  {
    p != [] && p !in t.files && p !in t.directories && (|p| == 1 || p[..|p| - 1] in t.directories)
  }

  function WithDirectory(t: Tree, p: Path): Tree { t.(directories := t.directories + {p}) }

  function WithFile(t: Tree, p: Path, data: Bytes): Tree { t.(files := t.files[p := data]) }

  /** The published directory: nothing at first; every state it passes through is on record. */
  class TargetDirectory {
    var tree: Option<Tree>
    ghost var trace: seq<Tree>

    constructor (tree: Option<Tree>)
      ensures this.tree == tree && trace == []
    {
      this.tree, trace := tree, [];
    }

    /** Claims the name: only a directory that did not exist can be claimed. */
    method Claim() returns (ok: bool)
      modifies this
      ensures ok <==> old(tree).None?
      ensures ok ==> tree == Some(Tree({}, map[])) && trace == old(trace) + [Tree({}, map[])]
      ensures !ok ==> tree == old(tree) && trace == old(trace)
    {
      ok := tree.None?;
      if ok {
        tree := Some(Tree({}, map[]));
        trace := trace + [Tree({}, map[])];
      }
    }

    method MakeDirectory(p: Path) returns (ok: bool)
      requires tree.Some?
      modifies this
      ensures ok <==> HasRoom(old(tree).value, p)
      ensures ok ==> tree == Some(WithDirectory(old(tree).value, p)) && trace == old(trace) + [tree.value]
      ensures !ok ==> tree == old(tree) && trace == old(trace)
    {
      ok := HasRoom(tree.value, p);
      if ok {
        tree := Some(WithDirectory(tree.value, p));
        trace := trace + [tree.value];
      }
    }

    /** Creates a file with its whole content, or fails because the path is taken. */
    method WriteNew(p: Path, data: Bytes) returns (ok: bool)
      requires tree.Some?
      modifies this
      ensures ok <==> HasRoom(old(tree).value, p)
      ensures ok ==> tree == Some(WithFile(old(tree).value, p, data)) && trace == old(trace) + [tree.value]
      ensures !ok ==> tree == old(tree) && trace == old(trace)
    {
      ok := HasRoom(tree.value, p);
      if ok {
        tree := Some(WithFile(tree.value, p, data));
        trace := trace + [tree.value];
      }
    }
  }

  // ---------- what a run may pass through ----------

  /** No state of the record holds a report. */
  ghost predicate Unreported(trace: seq<Tree>) { forall t | t in trace :: REPORT !in t.files }

  /** A report appears in no state but the last, and there the tree is the stage. */
  ghost predicate ReportLast(trace: seq<Tree>, stage: Tree)
  {
    forall i | 0 <= i < |trace| && REPORT in trace[i].files :: i == |trace| - 1 && trace[i] == stage
  }

  lemma UnreportedOneMore(trace: seq<Tree>, t: Tree)
    requires Unreported(trace) && REPORT !in t.files
    ensures Unreported(trace + [t])
  {}

  lemma UnreportedIsReportLast(trace: seq<Tree>, stage: Tree)
    requires Unreported(trace)
    ensures ReportLast(trace, stage) && (REPORT in stage.files ==> ReportLast(trace + [stage], stage))
  {
    forall i | 0 <= i < |trace| ensures REPORT !in trace[i].files { assert trace[i] in trace; }
  }

  /** Publication safety: any state that the verifier accepts is the whole stage. */
  lemma OnlyTheStageVerifies(codec: Codec, trace: seq<Tree>, stage: Tree, i: nat)
    requires ReportLast(trace, stage) && i < |trace| && ClosureHolds(codec, trace[i])
    ensures trace[i] == stage && i == |trace| - 1
  {}

  // ---------- copying ----------

  /** Shorter paths first, so that a parent is made before its children. */
  method ByDepth(directories: set<Path>) returns (list: seq<Path>)
    ensures forall p :: p in list <==> p in directories
    ensures forall i, j | 0 <= i < j < |list| :: list[i] != list[j] && |list[i]| <= |list[j]|
  {
    list := [];
    var left := directories;
    while left != {}
      invariant left <= directories && forall p :: p in list <==> p in directories - left
      invariant forall i, j | 0 <= i < j < |list| :: list[i] != list[j] && |list[i]| <= |list[j]|
      invariant forall i, p | 0 <= i < |list| && p in left :: |list[i]| <= |p|
    {
      var p := Shallowest(left);
      assert p !in list;
      list, left := list + [p], left - {p};
    }
  }

  method Shallowest(paths: set<Path>) returns (p: Path)
    requires paths != {}
    ensures p in paths && forall q | q in paths :: |p| <= |q|
  {
    p :| p in paths;
    var left := paths - {p};
    while left != {}
      invariant left <= paths && p in paths && forall q | q in paths - left :: |p| <= |q|
    {
      var q :| q in left;
      if |q| < |p| { p := q; }
      left := left - {q};
    }
  }

  /** The directories made so far, and no file. */
  function Made(list: seq<Path>, n: nat): Tree
    requires n <= |list|
  {
    Tree(set k | 0 <= k < n :: list[k], map[])
  }

  ghost predicate ParentsFirst(stage: Tree, list: seq<Path>)
  {
    && (forall p :: p in list <==> p in stage.directories)
    && forall a, b | 0 <= a < b < |list| :: list[a] != list[b] && |list[a]| <= |list[b]|
  }

  lemma MadeOneMore(list: seq<Path>, i: nat)
    requires i < |list|
    ensures WithDirectory(Made(list, i), list[i]) == Made(list, i + 1)
  {
    assert (set k | 0 <= k < i + 1 :: list[k]) == (set k | 0 <= k < i :: list[k]) + {list[i]};
  }

  lemma NotMadeYet(stage: Tree, list: seq<Path>, i: nat)
    requires ParentsFirst(stage, list) && i < |list|
    ensures list[i] !in Made(list, i).directories
  {
  }

  lemma ListedBefore(stage: Tree, list: seq<Path>, i: nat, p: Path)
    requires ParentsFirst(stage, list) && i < |list| && p in stage.directories && |p| < |list[i]|
    ensures p in Made(list, i).directories
  {
    var k :| 0 <= k < |list| && list[k] == p;
  }

  lemma ParentIsMade(stage: Tree, list: seq<Path>, i: nat)
    requires WellFormed(stage) && i < |list| && ParentsFirst(stage, list)
    ensures HasRoom(Made(list, i), list[i]) && WithDirectory(Made(list, i), list[i]) == Made(list, i + 1)
  {
    var p := list[i];
    assert p in stage.directories && p in stage.files.Keys + stage.directories;
    NotMadeYet(stage, list, i);
    if |p| > 1 { ListedBefore(stage, list, i, p[..|p| - 1]); }
    MadeOneMore(list, i);
  }

  lemma AllMade(stage: Tree, list: seq<Path>)
    requires ParentsFirst(stage, list)
    ensures Made(list, |list|) == Tree(stage.directories, map[])
  {
    forall p | p in stage.directories ensures p in Made(list, |list|).directories {
      assert p in list;
    }
  }

  method MakeDirectories(stage: Tree, target: TargetDirectory)
    requires WellFormed(stage) && target.tree == Some(Tree({}, map[])) && Unreported(target.trace)
    modifies target
    ensures target.tree == Some(Tree(stage.directories, map[])) && Unreported(target.trace)
  {
    var list := ByDepth(stage.directories);
    assert Made(list, 0) == Tree({}, map[]);
    for i := 0 to |list|
      invariant target.tree == Some(Made(list, i)) && Unreported(target.trace)
    {
      ParentIsMade(stage, list, i);
      ghost var before := target.trace;
      var made := target.MakeDirectory(list[i]);
      UnreportedOneMore(before, target.tree.value);
    }
    AllMade(stage, list);
  }

  function Copied(stage: Tree, paths: set<Path>): Tree
    requires paths <= stage.files.Keys
  {
    Tree(stage.directories, map p | p in paths :: stage.files[p])
  }

  lemma RoomForFile(stage: Tree, copied: set<Path>, p: Path)
    requires WellFormed(stage) && copied <= stage.files.Keys && p in stage.files && p !in copied
    ensures HasRoom(Copied(stage, copied), p)
    ensures WithFile(Copied(stage, copied), p, stage.files[p]) == Copied(stage, copied + {p})
  {
    assert p in stage.files.Keys + stage.directories;
  }

  /** Every file but the report. */
  method CopyFiles(stage: Tree, target: TargetDirectory)
    requires WellFormed(stage) && REPORT in stage.files && target.tree == Some(Tree(stage.directories, map[]))
    requires Unreported(target.trace)
    modifies target
    ensures target.tree == Some(Copied(stage, stage.files.Keys - {REPORT})) && Unreported(target.trace)
  {
    var left := stage.files.Keys - {REPORT};
    assert Copied(stage, {}) == Tree(stage.directories, map[]);
    assert stage.files.Keys - {REPORT} - left == {};
    while left != {}
      invariant left <= stage.files.Keys - {REPORT}
      invariant target.tree == Some(Copied(stage, stage.files.Keys - {REPORT} - left)) && Unreported(target.trace)
    {
      var p :| p in left;
      ghost var copied, before := stage.files.Keys - {REPORT} - left, target.trace;
      RoomForFile(stage, copied, p);
      var written := target.WriteNew(p, stage.files[p]);
      UnreportedOneMore(before, target.tree.value);
      left := left - {p};
      assert stage.files.Keys - {REPORT} - left == copied + {p};
    }
    assert stage.files.Keys - {REPORT} - left == stage.files.Keys - {REPORT};
  }

  lemma ReportCompletesStage(stage: Tree)
    requires WellFormed(stage) && REPORT in stage.files
    ensures HasRoom(Copied(stage, stage.files.Keys - {REPORT}), REPORT)
    ensures WithFile(Copied(stage, stage.files.Keys - {REPORT}), REPORT, stage.files[REPORT]) == stage
  {
    RoomForFile(stage, stage.files.Keys - {REPORT}, REPORT);
    assert stage.files.Keys - {REPORT} + {REPORT} == stage.files.Keys;
    assert (map p | p in stage.files.Keys :: stage.files[p]) == stage.files;
  }

  /**
   Publishes exactly when the name is free and the stage is accepted, and then the target is the stage byte for byte.
   Whatever happens, a report appears in no earlier state of the target.
   */
  method PublishCompletedStage(codec: Codec, stage: Tree, target: TargetDirectory) returns (ok: bool)
    requires WellFormed(stage) && target.trace == []
    modifies target
    ensures ok <==> old(target.tree).None? && ClosureHolds(codec, stage)
    ensures ok ==> target.tree == Some(stage)
    ensures old(target.tree).Some? ==> target.tree == old(target.tree) && target.trace == []
    ensures ReportLast(target.trace, stage)
  {
    if |stage.files.Keys| + |stage.directories| > MAX_ENTRIES {
      return false;
    }
    if REPORT !in stage.files || INCOMPLETE in stage.files {
      return false;
    }
    ok := target.Claim();
    if !ok {
      return false;
    }
    MakeDirectories(stage, target);
    CopyFiles(stage, target);
    ReportCompletesStage(stage);
    UnreportedIsReportLast(target.trace, stage);
    var reported := target.WriteNew(REPORT, stage.files[REPORT]);
    if !reported || target.tree.value != stage {
      return false;
    }
    ok := VerifyOutput(codec, target.tree.value);
  }

  // ---------- the stage itself ----------

  datatype Step = Directory(path: Path) | File(path: Path, data: Bytes) | Remove(path: Path)

  function Apply(t: Tree, step: Step): Tree
  {
    match step
    case Directory(p) => WithDirectory(t, p)
    case File(p, data) => WithFile(t, p, data)
    case Remove(p) => t.(files := t.files - {p})
  }

  function Run(t: Tree, steps: seq<Step>): Tree
  {
    if steps == [] then t else Apply(Run(t, steps[..|steps| - 1]), steps[|steps| - 1])
  }

  /** The order of the run: the marker first, the work, the marker's removal, the report last. */
  predicate MarkedWork(steps: seq<Step>)
  {
    && |steps| >= 3 && steps[0].File? && steps[0].path == INCOMPLETE
    && steps[|steps| - 2] == Remove(INCOMPLETE)
    && steps[|steps| - 1].File? && steps[|steps| - 1].path == REPORT
    && forall i | 0 < i < |steps| - 2 :: steps[i].path != REPORT && steps[i].path != INCOMPLETE
  }

  lemma {:induction false} WorkIsMarked(steps: seq<Step>, n: nat)
    requires MarkedWork(steps) && n < |steps|
    ensures REPORT !in Run(Tree({}, map[]), steps[..n]).files
    ensures 0 < n < |steps| - 1 ==> INCOMPLETE in Run(Tree({}, map[]), steps[..n]).files
    decreases n
  {
    if n > 0 {
      assert steps[..n][..n - 1] == steps[..n - 1];
      WorkIsMarked(steps, n - 1);
      assert INCOMPLETE[0] != REPORT[0] by { assert |"INCOMPLETE.json"| != |"sample-report.json"|; }
    }
  }

  /** No state of the stage verifies before its report is written, wherever the run is cut off. */
  lemma UnfinishedStageNeverVerifies(codec: Codec, steps: seq<Step>, n: nat)
    requires MarkedWork(steps) && n < |steps|
    ensures !ClosureHolds(codec, Run(Tree({}, map[]), steps[..n]))
  {
    WorkIsMarked(steps, n);
  }
}
