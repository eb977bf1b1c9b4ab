/** The validated source of a creative sample. */
module CreativeSpec {
  import opened TextTools

  datatype AssetVersion = AssetVersion(id: string, version: nat)

  datatype CharacterBible = CharacterBible(
    characterId: string, name: string, visualDescription: string,
    assetVersions: seq<AssetVersion>, activeAssetVersionId: string)

  datatype SceneBible = SceneBible(
    sceneId: string, ordinal: nat, name: string, visualDescription: string,
    assetVersions: seq<AssetVersion>, activeAssetVersionId: string)

  datatype DialogueLine = DialogueLine(
    lineId: string, ordinal: nat, sceneId: string, characterId: string, text: string, startMs: nat, endMs: nat)

  datatype Direction = Direction(
    visualDirection: string, emotionByCharacter: map<string, string>, action: string,
    shotSize: string, cameraAngle: string, cameraMovement: string,
    wardrobeByCharacter: map<string, string>, props: seq<string>, continuityNotes: string)

  datatype Shot = Shot(
    ordinal: nat, sceneId: string, narrative: string, direction: Direction,
    startMs: nat, durationMs: nat, characterIds: seq<string>, dialogueLineIds: seq<string>)

  datatype Spec = Spec(
    title: string, seed: int, durationMs: nat, characterBibles: seq<CharacterBible>, sceneBibles: seq<SceneBible>,
    dialogue: seq<DialogueLine>, shots: seq<Shot>)

  // ---------- projections ----------

  function CharacterIds(bibles: seq<CharacterBible>): (r: seq<string>)
  {
    seq(|bibles|, i requires 0 <= i < |bibles| => bibles[i].characterId)
  }

  function SceneIds(bibles: seq<SceneBible>): (r: seq<string>)
  {
    seq(|bibles|, i requires 0 <= i < |bibles| => bibles[i].sceneId)
  }

  function LineIds(dialogue: seq<DialogueLine>): (r: seq<string>)
  {
    seq(|dialogue|, i requires 0 <= i < |dialogue| => dialogue[i].lineId)
  }

  function VersionIds(versions: seq<AssetVersion>): (r: seq<string>)
  {
    seq(|versions|, i requires 0 <= i < |versions| => versions[i].id)
  }

  function Starts(shots: seq<Shot>): (r: seq<nat>)
  {
    seq(|shots|, i requires 0 <= i < |shots| => shots[i].startMs)
  }

  function Durations(shots: seq<Shot>): (r: seq<nat>)
  {
    seq(|shots|, i requires 0 <= i < |shots| => shots[i].durationMs)
  }

  function CharacterAssets(bibles: seq<CharacterBible>): seq<string>
  {
    if bibles == [] then []
    else CharacterAssets(bibles[..|bibles| - 1]) + VersionIds(bibles[|bibles| - 1].assetVersions)
  }

  function SceneAssets(bibles: seq<SceneBible>): seq<string>
  {
    if bibles == [] then []
    else SceneAssets(bibles[..|bibles| - 1]) + VersionIds(bibles[|bibles| - 1].assetVersions)
  }

  /** The shots of one scene, in order. */
  function ShotsIn(shots: seq<Shot>, sceneId: string): seq<Shot>
  {
    if shots == [] then []
    else
      var last := shots[|shots| - 1];
      ShotsIn(shots[..|shots| - 1], sceneId) + if last.sceneId == sceneId then [last] else []
  }

  function ShotsWith(shots: seq<Shot>, characterId: string): seq<Shot>
  {
    if shots == [] then []
    else
      var last := shots[|shots| - 1];
      ShotsWith(shots[..|shots| - 1], characterId) + if characterId in last.characterIds then [last] else []
  }

  /** The dialogue references of consecutive shots, one after another. */
  function Lines(shots: seq<Shot>): seq<string>
  {
    if shots == [] then [] else Lines(shots[..|shots| - 1]) + shots[|shots| - 1].dialogueLineIds
  }

  lemma {:induction false} ShotsInMembers(shots: seq<Shot>, id: string)
    ensures forall s :: s in ShotsIn(shots, id) <==> s in shots && s.sceneId == id
    decreases |shots|
  {
    if shots != [] { ShotsInMembers(shots[..|shots| - 1], id); }
  }

  lemma {:induction false} ShotsWithMembers(shots: seq<Shot>, id: string)
    ensures forall s :: s in ShotsWith(shots, id) <==> s in shots && id in s.characterIds
    decreases |shots|
  {
    if shots != [] { ShotsWithMembers(shots[..|shots| - 1], id); }
  }

  function ScenesOf(shots: seq<Shot>): set<string> { set s | s in shots :: s.sceneId }

  // ---------- the contracts of the parts ----------

  predicate ValidAssets(versions: seq<AssetVersion>, active: string)
  {
    && versions != [] && Unique(VersionIds(versions)) && active in VersionIds(versions)
    && (forall i, j | 0 <= i < j < |versions| :: versions[i].version < versions[j].version)
    && versions[0].version >= 1
  }

  /** The notes of a shot speak of exactly its cast. Screening of the note texts is not modelled. */
  predicate ValidDirection(d: Direction, characterIds: seq<string>)
  {
    d.emotionByCharacter.Keys == d.wardrobeByCharacter.Keys == Members(characterIds)
  }

  predicate ValidShot(s: Shot)
  {
    && s.durationMs > 0 && 1 <= |s.narrative| <= 4000
    && |s.characterIds| <= 2 && Ascending(s.characterIds) && "" !in s.characterIds
    && Unique(s.dialogueLineIds) && "" !in s.dialogueLineIds
    && ValidDirection(s.direction, s.characterIds)
  }

  predicate ValidLine(line: DialogueLine)
  {
    1 <= |line.text| <= 2000 && line.startMs < line.endMs
  }

  predicate ValidParts(spec: Spec)
  {
    && 1 <= |spec.title| <= 256 && 60_000 <= spec.durationMs <= 90_000
    && 1 <= |spec.characterBibles| <= 2 && |spec.sceneBibles| == 2 && spec.dialogue != [] && 8 <= |spec.shots| <= 12
    && (forall b | b in spec.characterBibles :: ValidAssets(b.assetVersions, b.activeAssetVersionId))
    && (forall b | b in spec.sceneBibles :: ValidAssets(b.assetVersions, b.activeAssetVersionId))
    && (forall line | line in spec.dialogue :: ValidLine(line))
    && (forall s | s in spec.shots :: ValidShot(s))
  }

  // ---------- the contract of the whole ----------

  predicate ValidCast(spec: Spec)
  {
    && Ascending(CharacterIds(spec.characterBibles))
    && Unique(SceneIds(spec.sceneBibles))
    && (forall i | 0 <= i < |spec.sceneBibles| :: spec.sceneBibles[i].ordinal == i)
    && Unique(CharacterAssets(spec.characterBibles) + SceneAssets(spec.sceneBibles))
  }

  /** Each of the first `n` lines starts no earlier than the line before it ends. */
  predicate Spaced(dialogue: seq<DialogueLine>, n: nat)
    requires n <= |dialogue|
  {
    forall i, j | 0 <= i < n && 0 <= j < n && j == i + 1 :: dialogue[i].endMs <= dialogue[j].startMs
  }

  predicate ValidDialogue(spec: Spec)
  {
    && Unique(LineIds(spec.dialogue))
    && (forall i | 0 <= i < |spec.dialogue| ::
          && spec.dialogue[i].ordinal == i
          && spec.dialogue[i].characterId in CharacterIds(spec.characterBibles)
          && spec.dialogue[i].sceneId in SceneIds(spec.sceneBibles)
          && spec.dialogue[i].endMs <= spec.durationMs)
    && Spaced(spec.dialogue, |spec.dialogue|)
  }

  function LineOf(dialogue: seq<DialogueLine>, id: string): (line: DialogueLine)
    requires id in LineIds(dialogue)
    ensures line in dialogue && line.lineId == id
  {
    dialogue[IndexOf(LineIds(dialogue), id)]
  }

  function SceneOf(bibles: seq<SceneBible>, id: string): (bible: SceneBible)
    requires id in SceneIds(bibles)
    ensures bible in bibles && bible.sceneId == id
  {
    bibles[IndexOf(SceneIds(bibles), id)]
  }

  function CharacterOf(bibles: seq<CharacterBible>, id: string): (bible: CharacterBible)
    requires id in CharacterIds(bibles)
    ensures bible in bibles && bible.characterId == id
  {
    bibles[IndexOf(CharacterIds(bibles), id)]
  }

  /** The dialogue references of a shot: known, in ordinal order, of its scene, cast and interval. */
  predicate LinesFit(dialogue: seq<DialogueLine>, s: Shot)
  {
    && (forall id | id in s.dialogueLineIds :: id in LineIds(dialogue))
    && (forall j, k | 0 <= j < k < |s.dialogueLineIds| ::
          LineOf(dialogue, s.dialogueLineIds[j]).ordinal <= LineOf(dialogue, s.dialogueLineIds[k]).ordinal)
    && (forall id | id in s.dialogueLineIds ::
          var line := LineOf(dialogue, id);
          && line.sceneId == s.sceneId && line.characterId in s.characterIds
          && s.startMs <= line.startMs && line.endMs <= s.startMs + s.durationMs)
  }

  predicate ShotFits(spec: Spec, s: Shot)
  {
    && s.sceneId in SceneIds(spec.sceneBibles)
    && (forall c | c in s.characterIds :: c in CharacterIds(spec.characterBibles))
    && LinesFit(spec.dialogue, s)
  }

  /** The declared ordinal of a scene; 0 for a scene nobody declared. */
  function SceneOrdinal(spec: Spec, id: string): nat
  {
    if id in SceneIds(spec.sceneBibles) then SceneOf(spec.sceneBibles, id).ordinal else 0
  }

  /** Scene ordinals never fall from one shot to the next. */
  predicate InBlocks(spec: Spec, shots: seq<Shot>)
  {
    forall i, j | 0 <= i < |shots| && 0 <= j < |shots| && j == i + 1 ::
      SceneOrdinal(spec, shots[i].sceneId) <= SceneOrdinal(spec, shots[j].sceneId)
  }

  predicate ValidShots(spec: Spec)
  {
    && (forall i | 0 <= i < |spec.shots| :: spec.shots[i].ordinal == i)
    && (forall s | s in spec.shots :: ShotFits(spec, s))
    && InBlocks(spec, spec.shots)
    && Timeline(Starts(spec.shots), Durations(spec.shots), spec.durationMs)
  }

  predicate ScenesCovered(spec: Spec)
  {
    forall id | id in SceneIds(spec.sceneBibles) :: |ShotsIn(spec.shots, id)| >= 3
  }

  predicate CastCovered(spec: Spec)
  {
    forall id | id in CharacterIds(spec.characterBibles) ::
      |ShotsWith(spec.shots, id)| >= 3
      && ScenesOf(ShotsWith(spec.shots, id)) == Members(SceneIds(spec.sceneBibles))
  }

  /** Every dialogue line is referenced by exactly one shot. */
  predicate LinesCovered(spec: Spec)
  {
    Unique(Lines(spec.shots)) && Members(Lines(spec.shots)) == Members(LineIds(spec.dialogue))
  }

  predicate ValidCoverage(spec: Spec) { ScenesCovered(spec) && CastCovered(spec) && LinesCovered(spec) }

  predicate ValidSpec(spec: Spec)
  {
    ValidParts(spec) && ValidCast(spec) && ValidDialogue(spec) && ValidShots(spec) && ValidCoverage(spec)
  }
}
