/** The intermediate representations, their contracts, and the compiler from a validated sample. */
module CreativeCompiler {
  import opened Wrappers
  import opened TextTools
  import opened CreativeSpec

  // ---------- identifiers: a kind and the leading hex of a digest, injective by assumption ----------

  datatype Id = Id(kind: string, digest: Digest)

  datatype Digest = Digest(content: Content)

  datatype Content =
    | OfSpec(spec: Spec)
    | OfScene(nirId: Id, scene: SceneBody)
    | OfShot(shot: ShotBody)
    | OfPir(durationMs: nat, nirId: Id, shots: seq<StoryboardShot>)
    | OfId(id: Id)
    | OfClock(pirId: Id, durationMs: nat)
    | OfIds(ids: seq<Id>)
    | OfCompilation(specSha: Digest, ids: seq<Id>)

  // ---------- the representations ----------

  datatype SceneBody = SceneBody(
    sceneBibleId: string, sceneAssetVersionId: string, ordinal: nat, narrative: string,
    startMs: nat, durationMs: nat, characterIds: seq<string>, dialogueLineIds: seq<string>)

  datatype NirScene = NirScene(id: Id, body: SceneBody)

  datatype Nir = Nir(
    id: Id, title: string, seed: int, durationMs: nat, characterBibles: seq<CharacterBible>,
    sceneBibles: seq<SceneBible>, dialogue: seq<DialogueLine>, scenes: seq<NirScene>)

  datatype Binding = Binding(characterId: string, assetVersionId: string)

  datatype ShotBody = ShotBody(
    nirSceneId: Id, sceneBibleId: string, sceneAssetVersionId: string, ordinal: nat, narrative: string,
    direction: Direction, prompt: string, startMs: nat, durationMs: nat,
    characterAssets: seq<Binding>, dialogueLineIds: seq<string>)

  datatype StoryboardShot = StoryboardShot(id: Id, body: ShotBody)

  datatype Pir = Pir(id: Id, nirId: Id, durationMs: nat, shots: seq<StoryboardShot>)

  datatype Cue = Cue(id: Id, shotId: Id, startMs: nat, endMs: nat)

  datatype Clock = Clock(id: Id, durationMs: nat, cues: seq<Cue>)

  datatype Job = Job(id: Id, shotId: Id, prompt: string, durationMs: nat, dependsOn: seq<Id>, idempotencyKey: Id)

  datatype JobGraph = JobGraph(id: Id, jobs: seq<Job>)

  datatype Item = Item(jobId: Id, startMs: nat, durationMs: nat)

  datatype Plan = Plan(id: Id, clockId: Id, items: seq<Item>)

  datatype Compilation = Compilation(
    id: Id, specSha: Digest, nir: Nir, pir: Pir, audioClock: Clock, jobGraph: JobGraph, assemblyPlan: Plan)

  // ---------- their contracts ----------

  function SceneStarts(scenes: seq<NirScene>): seq<nat>
  {
    seq(|scenes|, i requires 0 <= i < |scenes| => scenes[i].body.startMs)
  }

  function SceneDurations(scenes: seq<NirScene>): seq<nat>
  {
    seq(|scenes|, i requires 0 <= i < |scenes| => scenes[i].body.durationMs)
  }

  function ShotStarts(shots: seq<StoryboardShot>): seq<nat>
  {
    seq(|shots|, i requires 0 <= i < |shots| => shots[i].body.startMs)
  }

  function ShotDurations(shots: seq<StoryboardShot>): seq<nat>
  {
    seq(|shots|, i requires 0 <= i < |shots| => shots[i].body.durationMs)
  }

  predicate ValidNirScene(s: NirScene) { s.body.narrative != "" && s.body.durationMs > 0 }

  /** A scene of the representation against the bibles and the dialogue it references. */
  predicate SceneCloses(nir: Nir, b: SceneBody)
  {
    && b.sceneBibleId in SceneIds(nir.sceneBibles)
    && b.sceneAssetVersionId == SceneOf(nir.sceneBibles, b.sceneBibleId).activeAssetVersionId
    && forall id | id in b.dialogueLineIds ::
         && id in LineIds(nir.dialogue)
         && var line := LineOf(nir.dialogue, id);
            line.sceneId == b.sceneBibleId && line.characterId in b.characterIds
  }

  predicate ValidNir(nir: Nir)
  {
    && nir.title != "" && 60_000 <= nir.durationMs <= 90_000
    && 1 <= |nir.characterBibles| <= 2 && |nir.sceneBibles| == 2 && nir.dialogue != [] && |nir.scenes| == 2
    && (forall i | 0 <= i < |nir.scenes| :: nir.scenes[i].body.ordinal == i)
    && Timeline(SceneStarts(nir.scenes), SceneDurations(nir.scenes), nir.durationMs)
    && (set s | s in nir.scenes :: s.body.sceneBibleId) == Members(SceneIds(nir.sceneBibles))
    && (forall s | s in nir.scenes :: SceneCloses(nir, s.body))
    && Members(CharacterIds(nir.characterBibles)) == (set s, id | s in nir.scenes && id in s.body.characterIds :: id)
    && Members(LineIds(nir.dialogue)) == (set s, id | s in nir.scenes && id in s.body.dialogueLineIds :: id)
  }

  function BoundCharacters(bindings: seq<Binding>): seq<string>
  {
    seq(|bindings|, i requires 0 <= i < |bindings| => bindings[i].characterId)
  }

  function BoundAssets(bindings: seq<Binding>): seq<string>
  {
    seq(|bindings|, i requires 0 <= i < |bindings| => bindings[i].assetVersionId)
  }

  predicate ValidStoryboardShot(s: StoryboardShot)
  {
    && s.body.narrative != "" && s.body.prompt != "" && s.body.durationMs > 0 && |s.body.characterAssets| <= 2
    && Ascending(BoundCharacters(s.body.characterAssets))
    && Unique(BoundAssets(s.body.characterAssets))
    && Unique(s.body.dialogueLineIds)
    && ValidDirection(s.body.direction, BoundCharacters(s.body.characterAssets))
    && s.id == Id("storyboard_shot_v2", Digest(OfShot(s.body)))
  }

  predicate ValidPir(p: Pir)
  {
    && 60_000 <= p.durationMs <= 90_000 && 8 <= |p.shots| <= 12
    && (forall i | 0 <= i < |p.shots| :: p.shots[i].body.ordinal == i)
    && Timeline(ShotStarts(p.shots), ShotDurations(p.shots), p.durationMs)
    && p.id == Id("pirv2", Digest(OfPir(p.durationMs, p.nirId, p.shots)))
  }

  /** The last scene with an identifier, as a dictionary built from the scenes returns it. */
  function SceneById(scenes: seq<NirScene>, id: Id): Option<NirScene>
  {
    if scenes == [] then None
    else if scenes[|scenes| - 1].id == id then Some(scenes[|scenes| - 1])
    else SceneById(scenes[..|scenes| - 1], id)
  }

  predicate SceneRefCloses(nir: Nir, b: ShotBody)
  {
    && SceneById(nir.scenes, b.nirSceneId).Some?
    && SceneById(nir.scenes, b.nirSceneId).value.body.sceneBibleId == b.sceneBibleId
    && b.sceneBibleId in SceneIds(nir.sceneBibles)
    && b.sceneAssetVersionId == SceneOf(nir.sceneBibles, b.sceneBibleId).activeAssetVersionId
  }

  predicate BindingsClose(nir: Nir, b: ShotBody)
  {
    forall x | x in b.characterAssets ::
      && x.characterId in CharacterIds(nir.characterBibles)
      && x.assetVersionId == CharacterOf(nir.characterBibles, x.characterId).activeAssetVersionId
  }

  predicate LinesClose(nir: Nir, b: ShotBody)
  {
    forall id | id in b.dialogueLineIds ::
      && id in LineIds(nir.dialogue)
      && var line := LineOf(nir.dialogue, id);
         && line.sceneId == b.sceneBibleId && line.characterId in BoundCharacters(b.characterAssets)
         && b.startMs <= line.startMs && line.endMs <= b.startMs + b.durationMs
  }

  /** A storyboard shot against the scenes, bibles and dialogue it references. */
  predicate ShotCloses(nir: Nir, b: ShotBody) { SceneRefCloses(nir, b) && BindingsClose(nir, b) && LinesClose(nir, b) }

  predicate CueMatches(c: Cue, s: StoryboardShot)
  {
    c.shotId == s.id && c.startMs == s.body.startMs && c.endMs == s.body.startMs + s.body.durationMs
  }

  predicate JobMatches(j: Job, s: StoryboardShot)
  {
    j.shotId == s.id && j.prompt == s.body.prompt && j.durationMs == s.body.durationMs && j.dependsOn == []
  }

  /** Cues, jobs and assembly items follow the shots one for one. */
  predicate TracksFollow(shots: seq<StoryboardShot>, clock: Clock, graph: JobGraph, plan: Plan)
  {
    && |clock.cues| == |graph.jobs| == |plan.items| == |shots|
    && (forall i | 0 <= i < |shots| :: CueMatches(clock.cues[i], shots[i]))
    && (forall i | 0 <= i < |shots| :: JobMatches(graph.jobs[i], shots[i]))
    && plan.clockId == clock.id
    && (forall i | 0 <= i < |shots| ::
          plan.items[i] == Item(graph.jobs[i].id, shots[i].body.startMs, shots[i].body.durationMs))
  }

  predicate ValidCompilation(c: Compilation)
  {
    && c.nir.id == Id("nirv2", c.specSha)
    && c.pir.nirId == c.nir.id && c.pir.durationMs == c.nir.durationMs == c.audioClock.durationMs
    && (forall s | s in c.nir.scenes :: s.id == Id("nir_scene_v2", Digest(OfScene(c.nir.id, s.body))))
    && (forall i | 0 <= i < |c.pir.shots| :: ShotCloses(c.nir, c.pir.shots[i].body))
    && TracksFollow(c.pir.shots, c.audioClock, c.jobGraph, c.assemblyPlan)
    && c.id == Id("creative_sample", Digest(OfCompilation(
                 c.specSha, [c.nir.id, c.pir.id, c.audioClock.id, c.jobGraph.id, c.assemblyPlan.id])))
  }

  // ---------- what the compiler computes ----------

  function NirId(spec: Spec): Id { Id("nirv2", Digest(OfSpec(spec))) }

  /** The identifiers of the bibles that appear in some of the shots, in bible order. */
  function CastIn(bibles: seq<CharacterBible>, shots: seq<Shot>): seq<string>
  {
    if bibles == [] then []
    else
      var last := bibles[|bibles| - 1];
      CastIn(bibles[..|bibles| - 1], shots)
      + if exists s :: s in shots && last.characterId in s.characterIds then [last.characterId] else []
  }

  function Narratives(shots: seq<Shot>): seq<string>
  {
    seq(|shots|, i requires 0 <= i < |shots| => shots[i].narrative)
  }

  function SceneOfBible(spec: Spec, bible: SceneBible): NirScene
    requires ShotsIn(spec.shots, bible.sceneId) != []
  {
    var shots := ShotsIn(spec.shots, bible.sceneId);
    var body := SceneBody(
      bible.sceneId, bible.activeAssetVersionId, bible.ordinal, Join(" ", Narratives(shots)),
      shots[0].startMs, Sum(Durations(shots)), CastIn(spec.characterBibles, shots), Lines(shots));
    NirScene(Id("nir_scene_v2", Digest(OfScene(NirId(spec), body))), body)
  }

  function NirOf(spec: Spec): Nir
    requires ScenesCovered(spec)
  {
    Nir(NirId(spec), spec.title, spec.seed, spec.durationMs, spec.characterBibles, spec.sceneBibles, spec.dialogue,
        seq(|spec.sceneBibles|, i requires 0 <= i < |spec.sceneBibles| =>
          assert spec.sceneBibles[i].sceneId == SceneIds(spec.sceneBibles)[i];
          SceneOfBible(spec, spec.sceneBibles[i])))
  }

  function NamedEach(bibles: seq<CharacterBible>, ids: seq<string>, notes: map<string, string>): seq<string>
    requires forall id | id in ids :: id in CharacterIds(bibles) && id in notes
  {
    seq(|ids|, i requires 0 <= i < |ids| => CharacterOf(bibles, ids[i]).name + ": " + notes[ids[i]])
  }

  function LooksOf(bibles: seq<CharacterBible>): map<string, string>
  {
    map id | id in CharacterIds(bibles) :: CharacterOf(bibles, id).visualDescription
  }

  function SpokenLines(spec: Spec, s: Shot): seq<string>
    requires ShotFits(spec, s)
  {
    seq(|s.dialogueLineIds|, i requires 0 <= i < |s.dialogueLineIds| =>
      var line := LineOf(spec.dialogue, s.dialogueLineIds[i]);
      CharacterOf(spec.characterBibles, line.characterId).name + ": " + line.text)
  }

  function DirectionParts(s: Shot): seq<string>
  {
    ["Narrative: " + s.narrative, "Visual direction: " + s.direction.visualDirection, "Action: " + s.direction.action,
     "Shot size: " + s.direction.shotSize, "Camera angle: " + s.direction.cameraAngle,
     "Camera movement: " + s.direction.cameraMovement]
  }

  function CastParts(bibles: seq<CharacterBible>, s: Shot): seq<string>
    requires ValidDirection(s.direction, s.characterIds)
    requires forall id | id in s.characterIds :: id in CharacterIds(bibles)
  {
    if s.characterIds == [] then [] else
      ["Characters: " + Join("; ", NamedEach(bibles, s.characterIds, LooksOf(bibles))),
       "Emotion: " + Join("; ", NamedEach(bibles, s.characterIds, s.direction.emotionByCharacter)),
       "Wardrobe: " + Join("; ", NamedEach(bibles, s.characterIds, s.direction.wardrobeByCharacter))]
  }

  function ClosingParts(d: Direction): seq<string>
  {
    ["Props: " + (if d.props == [] then "none" else Join(", ", d.props)), "Continuity notes: " + d.continuityNotes]
  }

  function DialogueParts(spec: Spec, s: Shot): seq<string>
    requires ShotFits(spec, s)
  {
    if s.dialogueLineIds == [] then [] else ["Dialogue: " + Join(" | ", SpokenLines(spec, s))]
  }

  /** The generation prompt; every lookup in it succeeds for a shot that fits its sample. */
  function Prompt(spec: Spec, s: Shot): (prompt: string)
    requires ShotFits(spec, s) && ValidShot(s)
    ensures prompt != ""
  {
    var scene := "Scene: " + SceneOf(spec.sceneBibles, s.sceneId).visualDescription;
    Join("\n", [scene] + (DirectionParts(s) + CastParts(spec.characterBibles, s)
                          + ClosingParts(s.direction) + DialogueParts(spec, s)))
  }

  function BindingsOf(spec: Spec, ids: seq<string>): seq<Binding>
    requires forall id | id in ids :: id in CharacterIds(spec.characterBibles)
  {
    seq(|ids|, i requires 0 <= i < |ids| =>
      Binding(ids[i], CharacterOf(spec.characterBibles, ids[i]).activeAssetVersionId))
  }

  function StoryboardOf(spec: Spec, s: Shot): StoryboardShot
    requires ShotFits(spec, s) && ValidShot(s) && ScenesCovered(spec)
  {
    var bible := SceneOf(spec.sceneBibles, s.sceneId);
    var body := ShotBody(
      SceneOfBible(spec, bible).id, bible.sceneId, bible.activeAssetVersionId, s.ordinal, s.narrative, s.direction,
      Prompt(spec, s), s.startMs, s.durationMs, BindingsOf(spec, s.characterIds), s.dialogueLineIds);
    StoryboardShot(Id("storyboard_shot_v2", Digest(OfShot(body))), body)
  }

  predicate Compilable(spec: Spec)
  {
    ScenesCovered(spec) && forall s | s in spec.shots :: ShotFits(spec, s) && ValidShot(s)
  }

  function StoryboardAt(spec: Spec, i: nat): StoryboardShot
    requires Compilable(spec) && i < |spec.shots|
  {
    StoryboardOf(spec, spec.shots[i])
  }

  function StoryboardShots(spec: Spec): (shots: seq<StoryboardShot>)
    requires Compilable(spec)
    ensures |shots| == |spec.shots|
  {
    seq(|spec.shots|, i requires 0 <= i < |spec.shots| => StoryboardAt(spec, i))
  }

  function PirOf(spec: Spec): Pir
    requires Compilable(spec)
  {
    var shots := StoryboardShots(spec);
    Pir(Id("pirv2", Digest(OfPir(spec.durationMs, NirId(spec), shots))), NirId(spec), spec.durationMs, shots)
  }

  function ClockOf(pir: Pir, durationMs: nat): Clock
  {
    Clock(Id("clockv2", Digest(OfClock(pir.id, durationMs))), durationMs,
          seq(|pir.shots|, i requires 0 <= i < |pir.shots| =>
            var s := pir.shots[i];
            Cue(Id("cuev2", Digest(OfId(s.id))), s.id, s.body.startMs, s.body.startMs + s.body.durationMs)))
  }

  function GraphOf(pir: Pir): JobGraph
  {
    JobGraph(Id("graphv2", Digest(OfId(pir.id))),
             seq(|pir.shots|, i requires 0 <= i < |pir.shots| =>
               var s := pir.shots[i];
               Job(Id("jobv2", Digest(OfId(s.id))), s.id, s.body.prompt, s.body.durationMs, [],
                   Id("generatev2", Digest(OfId(s.id))))))
  }

  function PlanOf(pir: Pir, graph: JobGraph, clock: Clock): Plan
    requires |graph.jobs| == |pir.shots|
  {
    Plan(Id("assemblyv2", Digest(OfIds([graph.id, clock.id]))), clock.id,
         seq(|pir.shots|, i requires 0 <= i < |pir.shots| =>
           Item(graph.jobs[i].id, pir.shots[i].body.startMs, pir.shots[i].body.durationMs)))
  }

  function Assemble(spec: Spec, nir: Nir, pir: Pir): Compilation
  {
    var sha := Digest(OfSpec(spec));
    var clock, graph := ClockOf(pir, spec.durationMs), GraphOf(pir);
    var plan := PlanOf(pir, graph, clock);
    Compilation(Id("creative_sample", Digest(OfCompilation(sha, [nir.id, pir.id, clock.id, graph.id, plan.id]))),
                sha, nir, pir, clock, graph, plan)
  }

  function CompilationOf(spec: Spec): Compilation
    requires Compilable(spec)
  {
    Assemble(spec, NirOf(spec), PirOf(spec))
  }
}
