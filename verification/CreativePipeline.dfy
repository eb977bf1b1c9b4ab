/** The compiler as the pipeline runs it: scenes and shots appended one by one, every contract checked on the way. */
module CreativePipeline {
  import opened Wrappers
  import opened TextTools
  import opened CreativeSpec
  import opened CreativeCompiler
  import opened CreativeTotality

  datatype Rejection = Rejection(contract: string)

  method CompileScene(spec: Spec, bible: SceneBible) returns (scene: NirScene)
    requires ShotsIn(spec.shots, bible.sceneId) != []
    ensures scene == SceneOfBible(spec, bible)
  {
    var sourceShots: seq<Shot> := [];
    for i := 0 to |spec.shots|
      invariant sourceShots == ShotsIn(spec.shots[..i], bible.sceneId)
    {
      assert spec.shots[..i + 1][..i] == spec.shots[..i];
      if spec.shots[i].sceneId == bible.sceneId { sourceShots := sourceShots + [spec.shots[i]]; }
    }
    assert spec.shots[..|spec.shots|] == spec.shots;
    var dialogueIds: seq<string> := [];
    var durationMs := 0;
    for i := 0 to |sourceShots|
      invariant dialogueIds == Lines(sourceShots[..i]) && durationMs == Sum(Durations(sourceShots)[..i])
    {
      assert sourceShots[..i + 1][..i] == sourceShots[..i];
      assert Durations(sourceShots)[..i + 1][..i] == Durations(sourceShots)[..i];
      dialogueIds := dialogueIds + sourceShots[i].dialogueLineIds;
      durationMs := durationMs + sourceShots[i].durationMs;
    }
    assert sourceShots[..|sourceShots|] == sourceShots;
    assert Durations(sourceShots)[..|sourceShots|] == Durations(sourceShots);
    var body := SceneBody(
      bible.sceneId, bible.activeAssetVersionId, bible.ordinal, Join(" ", Narratives(sourceShots)),
      sourceShots[0].startMs, durationMs, CastIn(spec.characterBibles, sourceShots), dialogueIds);
    scene := NirScene(Id("nir_scene_v2", Digest(OfScene(NirId(spec), body))), body);
  }

  method CompileScenes(spec: Spec) returns (scenes: seq<NirScene>)
    requires ScenesCovered(spec)
    ensures scenes == NirOf(spec).scenes
  {
    scenes := [];
    for i := 0 to |spec.sceneBibles|
      invariant scenes == NirOf(spec).scenes[..i]
    {
      assert SceneIds(spec.sceneBibles)[i] == spec.sceneBibles[i].sceneId;
      var scene := CompileScene(spec, spec.sceneBibles[i]);
      assert scene == NirOf(spec).scenes[i];
      scenes := scenes + [scene];
    }
  }

  lemma PrefixGrows<T>(all: seq<T>, i: nat)
    requires i < |all|
    ensures all[..i] + [all[i]] == all[..i + 1]
  {}

  method CompileStoryboard(spec: Spec) returns (shots: seq<StoryboardShot>)
    requires Compilable(spec)
    ensures shots == StoryboardShots(spec)
  {
    shots := [];
    for i := 0 to |spec.shots|
      invariant shots == StoryboardShots(spec)[..i]
    {
      var shot := StoryboardAt(spec, i);
      assert StoryboardShots(spec)[i] == shot;
      PrefixGrows(StoryboardShots(spec), i);
      shots := shots + [shot];
    }
  }

  /** The field contract of every scene, as its constructor runs it. */
  method CheckScenes(scenes: seq<NirScene>) returns (ok: bool)
    ensures ok <==> forall i | 0 <= i < |scenes| :: ValidNirScene(scenes[i])
  {
    for i := 0 to |scenes|
      invariant forall k | 0 <= k < i :: ValidNirScene(scenes[k])
    {
      if !ValidNirScene(scenes[i]) {
        return false;
      }
    }
    return true;
  }

  method CheckStoryboard(shots: seq<StoryboardShot>) returns (ok: bool)
    ensures ok <==> forall i | 0 <= i < |shots| :: ValidStoryboardShot(shots[i])
  {
    for i := 0 to |shots|
      invariant forall k | 0 <= k < i :: ValidStoryboardShot(shots[k])
    {
      if !ValidStoryboardShot(shots[i]) {
        return false;
      }
    }
    return true;
  }

  /** The timeline loop of the shot contract: one cursor over the shots. */
  method TimelineCursor(starts: seq<nat>, durations: seq<nat>) returns (ok: bool, cursor: nat)
    requires |starts| == |durations|
    ensures ok <==> forall i | 0 <= i < |starts| :: starts[i] == Sum(durations[..i])
    ensures ok ==> cursor == Sum(durations)
  {
    cursor := 0;
    for i := 0 to |starts|
      invariant cursor == Sum(durations[..i])
      invariant forall k | 0 <= k < i :: starts[k] == Sum(durations[..k])
    {
      if starts[i] != cursor {
        return false, cursor;
      }
      assert durations[..i + 1][..i] == durations[..i];
      cursor := cursor + durations[i];
    }
    assert durations[..|durations|] == durations;
    return true, cursor;
  }

  method CheckPirTimeline(p: Pir) returns (ok: bool)
    ensures ok <==> ValidPir(p)
  {
    var contiguous, cursor := TimelineCursor(ShotStarts(p.shots), ShotDurations(p.shots));
    return contiguous && cursor == p.durationMs && 60_000 <= p.durationMs <= 90_000 && 8 <= |p.shots| <= 12
           && (forall i | 0 <= i < |p.shots| :: p.shots[i].body.ordinal == i)
           && p.id == Id("pirv2", Digest(OfPir(p.durationMs, p.nirId, p.shots)));
  }

  predicate NirAccepted(nir: Nir)
  {
    ValidNir(nir) && forall i | 0 <= i < |nir.scenes| :: ValidNirScene(nir.scenes[i])
  }

  predicate PirAccepted(pir: Pir)
  {
    ValidPir(pir) && forall i | 0 <= i < |pir.shots| :: ValidStoryboardShot(pir.shots[i])
  }

  /** Every contract the compiler instantiates, on what it builds. */
  predicate EveryContractAccepts(spec: Spec)
    requires Compilable(spec)
  {
    NirAccepted(NirOf(spec)) && PirAccepted(PirOf(spec)) && ValidCompilation(CompilationOf(spec))
  }

  method CheckNir(nir: Nir) returns (ok: bool)
    ensures ok <==> NirAccepted(nir)
  {
    ok := CheckScenes(nir.scenes);
    return ok && ValidNir(nir);
  }

  method CheckPir(pir: Pir) returns (ok: bool)
    ensures ok <==> PirAccepted(pir)
  {
    var shotsOk := CheckStoryboard(pir.shots);
    var timelineOk := CheckPirTimeline(pir);
    return shotsOk && timelineOk;
  }

  /** The compiler fails exactly when one of the contracts rejects; otherwise it returns the compilation. */
  method CompileCreativeSample(spec: Spec) returns (r: Result<Compilation, Rejection>)
    requires Compilable(spec)
    ensures r.Success? <==> EveryContractAccepts(spec)
    ensures r.Success? ==> r.value == CompilationOf(spec)
  {
    var scenes := CompileScenes(spec);
    var nir := Nir(NirId(spec), spec.title, spec.seed, spec.durationMs, spec.characterBibles, spec.sceneBibles,
                   spec.dialogue, scenes);
    var nirOk := CheckNir(nir);
    if !nirOk {
      return Failure(Rejection("NIRV2"));
    }
    var shots := CompileStoryboard(spec);
    var pir := Pir(Id("pirv2", Digest(OfPir(spec.durationMs, nir.id, shots))), nir.id, spec.durationMs, shots);
    var pirOk := CheckPir(pir);
    if !pirOk {
      return Failure(Rejection("PIRV2"));
    }
    var compilation := Assemble(spec, nir, pir);
    if !ValidCompilation(compilation) {
      return Failure(Rejection("CreativeSampleCompilation"));
    }
    return Success(compilation);
  }

  lemma PirIsAccepted(spec: Spec)
    requires ValidSpec(spec)
    ensures Compilable(spec) && PirAccepted(PirOf(spec))
  {
    ValidIsCompilable(spec);
    PirAccepts(spec);
    forall i | 0 <= i < |PirOf(spec).shots| ensures ValidStoryboardShot(PirOf(spec).shots[i]) {
      StoryboardAccepts(spec, spec.shots[i]);
    }
  }

  lemma NirIsAccepted(spec: Spec)
    requires ValidSpec(spec)
    ensures Compilable(spec) && NirAccepted(NirOf(spec))
  {
    NirAccepts(spec);
  }

  /** Totality: no contract ever rejects what the compiler builds from a validated sample. */
  lemma CompilerIsTotal(spec: Spec)
    requires ValidSpec(spec)
    ensures Compilable(spec) && EveryContractAccepts(spec)
  {
    NirIsAccepted(spec);
    PirIsAccepted(spec);
    ghost var k := ScenesAreHalves(spec);
    CompilationAccepts(spec);
  }
}
