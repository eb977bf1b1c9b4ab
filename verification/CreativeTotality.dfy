/** Compiler totality: for a validated sample every downstream contract accepts what the compiler builds. */
module CreativeTotality {
  import opened Wrappers
  import opened TextTools
  import opened CreativeSpec
  import opened CreativeCompiler
  import opened CreativeTheorems

  // ---------- scenes ----------

  lemma {:induction false} CastInHolds(bibles: seq<CharacterBible>, shots: seq<Shot>, c: string)
    ensures c in CastIn(bibles, shots) <==> c in CharacterIds(bibles) && exists s :: s in shots && c in s.characterIds
    decreases |bibles|
  {
    if bibles != [] {
      var init := bibles[..|bibles| - 1];
      CastInHolds(init, shots, c);
      assert CharacterIds(bibles) == CharacterIds(init) + [bibles[|bibles| - 1].characterId];
    }
  }

  lemma LinesInShots(shots: seq<Shot>, id: string)
    ensures id in Lines(shots) <==> exists s :: s in shots && id in s.dialogueLineIds
  {
    if id in Lines(shots) {
      var k :| 0 <= k < |Lines(shots)| && Lines(shots)[k] == id;
      var i, j := LinesComeFromShots(shots, k);
      assert shots[i] in shots;
    }
    if s :| s in shots && id in s.dialogueLineIds {
      var i :| 0 <= i < |shots| && shots[i] == s;
      assert shots == shots[..i] + [shots[i]] + shots[i + 1..];
      LinesSplit(shots[..i] + [shots[i]], shots[i + 1..]);
      LinesSplit(shots[..i], [shots[i]]);
      assert [shots[i]][..0] == [];
    }
  }

  lemma {:induction false} JoinIsNotEmpty(separator: string, parts: seq<string>)
    requires parts != [] && parts[0] != ""
    ensures Join(separator, parts) != ""
  {}

  lemma {:induction false} SumIsPositive(xs: seq<nat>)
    requires xs != [] && forall i | 0 <= i < |xs| :: xs[i] > 0
    ensures Sum(xs) > 0
  {}

  /** The two compiled scenes are the two halves of the shot sequence. */
  lemma ScenesAreHalves(spec: Spec) returns (k: nat)
    requires ValidCast(spec) && ValidShots(spec) && ScenesCovered(spec) && |spec.sceneBibles| == 2
    ensures TwoScenes(spec) && 3 <= k <= |spec.shots| - 3
    ensures ShotsIn(spec.shots, SceneZero(spec)) == spec.shots[..k]
    ensures ShotsIn(spec.shots, SceneOne(spec)) == spec.shots[k..]
    ensures forall i | 0 <= i < |spec.shots| ::
      spec.shots[i].sceneId == if i < k then SceneZero(spec) else SceneOne(spec)
    ensures SceneIds(spec.sceneBibles) == [SceneZero(spec), SceneOne(spec)]
  {
    assert SceneIds(spec.sceneBibles) == [spec.sceneBibles[0].sceneId, spec.sceneBibles[1].sceneId];
    forall s | s in spec.shots ensures s.sceneId in SceneIds(spec.sceneBibles) {
      assert ShotFits(spec, s);
    }
    k := SceneBlocks(spec);
  }

  /** Scene starts are prefix sums too, and the scenes cover the sample. */
  lemma ScenesTileTheTimeline(spec: Spec)
    requires ValidCast(spec) && ValidShots(spec) && ScenesCovered(spec) && |spec.sceneBibles| == 2
    ensures var scenes := NirOf(spec).scenes; Timeline(SceneStarts(scenes), SceneDurations(scenes), spec.durationMs)
  {
    var k := ScenesAreHalves(spec);
    var scenes := NirOf(spec).scenes;
    HalfTimes(spec.shots, k, spec.durationMs);
    assert SceneStarts(scenes) == [spec.shots[..k][0].startMs, spec.shots[k..][0].startMs];
    assert SceneDurations(scenes) == [Sum(Durations(spec.shots[..k])), Sum(Durations(spec.shots[k..]))];
  }

  lemma HalfTimes(shots: seq<Shot>, k: nat, total: nat)
    requires 0 < k < |shots| && Timeline(Starts(shots), Durations(shots), total)
    ensures Timeline([shots[..k][0].startMs, shots[k..][0].startMs],
                     [Sum(Durations(shots[..k])), Sum(Durations(shots[k..]))], total)
  {
    var all := Durations(shots);
    assert Durations(shots[..k]) == all[..k] && Durations(shots[k..]) == all[k..] && all == all[..k] + all[k..];
    SumSplits(all[..k], all[k..]);
    assert Starts(shots)[0] == 0 && Starts(shots)[k] == Sum(all[..k]);
    SumOfTwo(Sum(all[..k]), Sum(all[k..]));
  }

  lemma SumOfTwo(x: nat, y: nat)
    ensures Sum([x, y]) == x + y && Sum([x, y][..1]) == x && Sum([x, y][..0]) == 0
  {
    assert [x, y][..0] == [] && [x, y][..1] == [x] && [x][..0] == [];
    assert Sum([x]) == x && [x, y][..|[x, y]| - 1] == [x];
  }

  /** Dialogue read scene by scene is the dialogue itself. */
  lemma SceneDialogueOrder(spec: Spec)
    requires ValidSpec(spec)
    ensures var scenes := NirOf(spec).scenes;
            scenes[0].body.dialogueLineIds + scenes[1].body.dialogueLineIds == LineIds(spec.dialogue)
  {
    var k := ScenesAreHalves(spec);
    LinesSplit(spec.shots[..k], spec.shots[k..]);
    assert spec.shots == spec.shots[..k] + spec.shots[k..];
    DialogueOrder(spec);
  }

  lemma ShotsMakeAScene(shots: seq<Shot>)
    requires shots != [] && forall i | 0 <= i < |shots| :: ValidShot(shots[i])
    ensures Join(" ", Narratives(shots)) != "" && Sum(Durations(shots)) > 0
  {
    assert ValidShot(shots[0]);
    JoinIsNotEmpty(" ", Narratives(shots));
    forall j | 0 <= j < |shots| ensures Durations(shots)[j] > 0 { assert ValidShot(shots[j]); }
    SumIsPositive(Durations(shots));
  }

  lemma SceneLinesClose(spec: Spec, sceneId: string, id: string)
    requires id in Lines(ShotsIn(spec.shots, sceneId)) && forall s | s in spec.shots :: ShotFits(spec, s)
    ensures id in LineIds(spec.dialogue)
    ensures LineOf(spec.dialogue, id).sceneId == sceneId
    ensures LineOf(spec.dialogue, id).characterId in CastIn(spec.characterBibles, ShotsIn(spec.shots, sceneId))
  {
    var shots := ShotsIn(spec.shots, sceneId);
    ShotsInMembers(spec.shots, sceneId);
    LinesInShots(shots, id);
    var s :| s in shots && id in s.dialogueLineIds;
    assert ShotFits(spec, s);
    CastInHolds(spec.characterBibles, shots, LineOf(spec.dialogue, id).characterId);
  }

  lemma SceneClosesOverItsShots(spec: Spec, i: nat)
    requires Compilable(spec) && |spec.sceneBibles| == 2 && i < 2 && Unique(SceneIds(spec.sceneBibles))
    ensures var s := NirOf(spec).scenes[i]; ValidNirScene(s) && SceneCloses(NirOf(spec), s.body)
  {
    var bible := spec.sceneBibles[i];
    assert SceneIds(spec.sceneBibles)[i] == bible.sceneId;
    assert SceneOf(spec.sceneBibles, bible.sceneId) == bible;
    var shots := ShotsIn(spec.shots, bible.sceneId);
    ShotsInMembers(spec.shots, bible.sceneId);
    forall j | 0 <= j < |shots| ensures ValidShot(shots[j]) { assert shots[j] in shots; }
    ShotsMakeAScene(shots);
    forall id | id in Lines(shots)
      ensures id in LineIds(spec.dialogue) && LineOf(spec.dialogue, id).sceneId == bible.sceneId
      ensures LineOf(spec.dialogue, id).characterId in CastIn(spec.characterBibles, shots)
    {
      SceneLinesClose(spec, bible.sceneId, id);
    }
  }

  // ---------- the narrative representation ----------

  lemma BothScenesHoldEveryCharacter(spec: Spec, c: string)
    requires ValidCoverage(spec) && |spec.sceneBibles| == 2
    ensures var s := NirOf(spec).scenes[0].body.characterIds; c in s <==> c in CharacterIds(spec.characterBibles)
    ensures var s := NirOf(spec).scenes[1].body.characterIds; c in s ==> c in CharacterIds(spec.characterBibles)
  {
    var first := spec.sceneBibles[0].sceneId;
    CastInHolds(spec.characterBibles, ShotsIn(spec.shots, first), c);
    CastInHolds(spec.characterBibles, ShotsIn(spec.shots, spec.sceneBibles[1].sceneId), c);
    if c in CharacterIds(spec.characterBibles) {
      assert SceneIds(spec.sceneBibles)[0] == first && first in Members(SceneIds(spec.sceneBibles));
      var s :| s in ShotsWith(spec.shots, c) && s.sceneId == first;
      ShotsWithMembers(spec.shots, c);
      ShotsInMembers(spec.shots, first);
    }
  }

  lemma NirCharacterClosure(spec: Spec)
    requires ValidCoverage(spec) && |spec.sceneBibles| == 2
    ensures var nir := NirOf(spec);
            Members(CharacterIds(nir.characterBibles)) == set s, id | s in nir.scenes && id in s.body.characterIds :: id
  {
    var nir := NirOf(spec);
    assert nir.scenes[0] in nir.scenes;
    var held := set s, id | s in nir.scenes && id in s.body.characterIds :: id;
    forall c | c in CharacterIds(spec.characterBibles) ensures c in held { BothScenesHoldEveryCharacter(spec, c); }
    forall c | c in held ensures c in CharacterIds(spec.characterBibles) {
      var s :| s in nir.scenes && c in s.body.characterIds;
      HeldIsDeclared(spec, s, c);
    }
  }

  lemma HeldIsDeclared(spec: Spec, s: NirScene, c: string)
    requires ValidCoverage(spec) && |spec.sceneBibles| == 2
    requires s in NirOf(spec).scenes && c in s.body.characterIds
    ensures c in CharacterIds(spec.characterBibles)
  {
    assert s == NirOf(spec).scenes[0] || s == NirOf(spec).scenes[1];
    BothScenesHoldEveryCharacter(spec, c);
  }

  lemma NirDialogueClosure(spec: Spec)
    requires ValidSpec(spec)
    ensures var nir := NirOf(spec);
            Members(LineIds(nir.dialogue)) == set s, id | s in nir.scenes && id in s.body.dialogueLineIds :: id
  {
    var nir := NirOf(spec);
    SceneDialogueOrder(spec);
    assert nir.scenes == [nir.scenes[0], nir.scenes[1]];
    assert nir.scenes[0] in nir.scenes && nir.scenes[1] in nir.scenes;
  }

  lemma NirSceneClosure(spec: Spec)
    requires ScenesCovered(spec) && |spec.sceneBibles| == 2
    ensures var nir := NirOf(spec); (set s | s in nir.scenes :: s.body.sceneBibleId) == Members(SceneIds(nir.sceneBibles))
  {
    var nir := NirOf(spec);
    forall i | 0 <= i < 2 ensures nir.scenes[i] in nir.scenes && SceneIds(spec.sceneBibles)[i] == nir.scenes[i].body.sceneBibleId {}
    assert nir.scenes == [nir.scenes[0], nir.scenes[1]];
  }

  lemma ValidIsCompilable(spec: Spec)
    requires ValidSpec(spec)
    ensures Compilable(spec)
  {}

  lemma NirAccepts(spec: Spec)
    requires ValidSpec(spec)
    ensures ValidNir(NirOf(spec)) && forall s | s in NirOf(spec).scenes :: ValidNirScene(s)
  {
    ScenesTileTheTimeline(spec);
    NirSceneClosure(spec);
    NirCharacterClosure(spec);
    NirDialogueClosure(spec);
    forall s | s in NirOf(spec).scenes ensures SceneCloses(NirOf(spec), s.body) && ValidNirScene(s) { SceneIsAccepted(spec, s); }
  }

  lemma SceneIsAccepted(spec: Spec, s: NirScene)
    requires Compilable(spec) && |spec.sceneBibles| == 2 && Unique(SceneIds(spec.sceneBibles)) && s in NirOf(spec).scenes
    ensures SceneCloses(NirOf(spec), s.body) && ValidNirScene(s)
  {
    var i :| 0 <= i < 2 && NirOf(spec).scenes[i] == s;
    SceneClosesOverItsShots(spec, i);
  }

  // ---------- the storyboard ----------

  lemma {:induction false} VersionsInCharacterAssets(bibles: seq<CharacterBible>, i: nat, v: nat) returns (p: nat)
    requires i < |bibles| && v < |bibles[i].assetVersions|
    ensures p < |CharacterAssets(bibles)| && CharacterAssets(bibles)[p] == bibles[i].assetVersions[v].id
    ensures p == |CharacterAssets(bibles[..i])| + v
    decreases |bibles|
  {
    var n := |bibles| - 1;
    if i < n {
      assert bibles[..n][..i] == bibles[..i];
      p := VersionsInCharacterAssets(bibles[..n], i, v);
    } else {
      p := |CharacterAssets(bibles[..i])| + v;
    }
  }

  lemma {:induction false} CharacterAssetsGrow(bibles: seq<CharacterBible>, i: nat, n: nat)
    requires i <= n <= |bibles|
    ensures |CharacterAssets(bibles[..i])| <= |CharacterAssets(bibles[..n])|
    decreases n
  {
    if i < n {
      assert bibles[..n][..n - 1] == bibles[..n - 1];
      CharacterAssetsGrow(bibles, i, n - 1);
    }
  }

  lemma UniquePrefix(xs: seq<string>, ys: seq<string>)
    requires Unique(xs + ys)
    ensures Unique(xs)
  {
    forall i, j | 0 <= i < j < |xs| ensures xs[i] != xs[j] { assert (xs + ys)[i] == xs[i] && (xs + ys)[j] == xs[j]; }
  }

  /** Global uniqueness of asset versions keeps the active assets of two characters apart. */
  lemma ActiveAssetsDiffer(spec: Spec, i: nat, j: nat)
    requires Unique(CharacterAssets(spec.characterBibles)) && i < j < |spec.characterBibles|
    requires forall b | b in spec.characterBibles :: ValidAssets(b.assetVersions, b.activeAssetVersionId)
    ensures spec.characterBibles[i].activeAssetVersionId != spec.characterBibles[j].activeAssetVersionId
  {
    var bibles := spec.characterBibles;
    var a, b := bibles[i], bibles[j];
    assert ValidAssets(a.assetVersions, a.activeAssetVersionId) && ValidAssets(b.assetVersions, b.activeAssetVersionId);
    var v := IndexOf(VersionIds(a.assetVersions), a.activeAssetVersionId);
    var w := IndexOf(VersionIds(b.assetVersions), b.activeAssetVersionId);
    var p := VersionsInCharacterAssets(bibles, i, v);
    var q := VersionsInCharacterAssets(bibles, j, w);
    assert bibles[..i + 1][..i] == bibles[..i];
    CharacterAssetsGrow(bibles, i + 1, j);
    assert p < q;
  }

  lemma BindingsAreDistinct(spec: Spec, ids: seq<string>)
    requires ValidParts(spec) && Unique(CharacterAssets(spec.characterBibles)) && Unique(ids)
    requires forall id | id in ids :: id in CharacterIds(spec.characterBibles)
    ensures BoundCharacters(BindingsOf(spec, ids)) == ids && Unique(BoundAssets(BindingsOf(spec, ids)))
  {
    forall a, b | 0 <= a < b < |ids|
      ensures BoundAssets(BindingsOf(spec, ids))[a] != BoundAssets(BindingsOf(spec, ids))[b]
    {
      var i := IndexOf(CharacterIds(spec.characterBibles), ids[a]);
      var j := IndexOf(CharacterIds(spec.characterBibles), ids[b]);
      if i < j { ActiveAssetsDiffer(spec, i, j); } else if j < i { ActiveAssetsDiffer(spec, j, i); }
    }
  }

  lemma StoryboardAccepts(spec: Spec, s: Shot)
    requires ValidParts(spec) && ValidCast(spec) && ScenesCovered(spec) && ShotFits(spec, s) && ValidShot(s)
    ensures ValidStoryboardShot(StoryboardOf(spec, s))
  {
    UniquePrefix(CharacterAssets(spec.characterBibles), SceneAssets(spec.sceneBibles));
    AscendingIsUnique(s.characterIds);
    BindingsAreDistinct(spec, s.characterIds);
  }

  lemma PirAccepts(spec: Spec)
    requires Compilable(spec) && ValidParts(spec) && ValidShots(spec)
    ensures ValidPir(PirOf(spec))
  {
    StoryboardKeepsTimes(spec);
  }

  lemma StoryboardKeepsTimes(spec: Spec)
    requires Compilable(spec)
    ensures var shots := PirOf(spec).shots;
            && ShotStarts(shots) == Starts(spec.shots) && ShotDurations(shots) == Durations(spec.shots)
            && forall i | 0 <= i < |shots| :: shots[i].body.ordinal == spec.shots[i].ordinal
  {}

  // ---------- the compilation ----------

  lemma SceneLookup(first: NirScene, second: NirScene)
    requires first.id != second.id
    ensures SceneById([first, second], first.id) == Some(first) && SceneById([first, second], second.id) == Some(second)
  {
    var scenes := [first, second];
    assert scenes[..|scenes| - 1] == [first];
    assert SceneById([first], first.id) == Some(first);
  }

  lemma SceneRefAccepts(spec: Spec, s: Shot)
    requires Compilable(spec) && ShotFits(spec, s) && ValidShot(s) && TwoScenes(spec)
    ensures SceneRefCloses(NirOf(spec), StoryboardOf(spec, s).body)
  {
    var nir := NirOf(spec);
    TwoSceneOrdinals(spec, s.sceneId);
    assert nir.scenes[0].body.ordinal != nir.scenes[1].body.ordinal;
    assert nir.scenes == [nir.scenes[0], nir.scenes[1]];
    SceneLookup(nir.scenes[0], nir.scenes[1]);
  }

  lemma BindingsAccept(spec: Spec, s: Shot)
    requires Compilable(spec) && ShotFits(spec, s) && ValidShot(s)
    ensures BindingsClose(NirOf(spec), StoryboardOf(spec, s).body)
  {}

  lemma LinesAccept(spec: Spec, s: Shot)
    requires Compilable(spec) && ShotFits(spec, s) && ValidShot(s)
    ensures LinesClose(NirOf(spec), StoryboardOf(spec, s).body)
  {
    assert BoundCharacters(BindingsOf(spec, s.characterIds)) == s.characterIds;
  }

  lemma TracksFollowShots(pir: Pir, durationMs: nat)
    ensures TracksFollow(pir.shots, ClockOf(pir, durationMs), GraphOf(pir),
                         PlanOf(pir, GraphOf(pir), ClockOf(pir, durationMs)))
  {}

  lemma ShotsClose(spec: Spec, i: nat)
    requires Compilable(spec) && TwoScenes(spec) && i < |spec.shots|
    ensures ShotCloses(NirOf(spec), PirOf(spec).shots[i].body)
  {
    assert ShotFits(spec, spec.shots[i]) && ValidShot(spec.shots[i]);
    SceneRefAccepts(spec, spec.shots[i]);
    BindingsAccept(spec, spec.shots[i]);
    LinesAccept(spec, spec.shots[i]);
  }

  lemma CompilationAccepts(spec: Spec)
    requires Compilable(spec) && TwoScenes(spec)
    ensures ValidCompilation(CompilationOf(spec))
  {
    forall i | 0 <= i < |spec.shots| ensures ShotCloses(NirOf(spec), PirOf(spec).shots[i].body) { ShotsClose(spec, i); }
    TracksFollowShots(PirOf(spec), spec.durationMs);
  }
}
