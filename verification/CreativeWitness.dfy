/** A whole sample that the contract accepts for any dialogue text, and what that means for a blank one. */
module CreativeWitness {
  import opened Wrappers
  import opened TextTools
  import opened CreativeSpec
  import opened CreativeMedia
  import opened Subtitles

  const CAST := ["c"]

  function SceneName(k: nat): string { if k < 4 then "s0" else "s1" }

  function ShotAt(k: nat): Shot
  {
    Shot(k, SceneName(k), "walks", Direction("wide", map["c" := "calm"], "walks", "WIDE", "EYE", "STATIC",
                                             map["c" := "coat"], [], "none"),
         7500 * k, 7500, CAST, if k == 0 then ["l"] else [])
  }

  /** Eight shots of 7.5 s, four in each scene; the first one speaks the line. */
  function FirstShots(n: nat): (r: seq<Shot>)
    ensures |r| == n && forall k | 0 <= k < n :: r[k] == ShotAt(k)
  {
    seq(n, k requires 0 <= k < n => ShotAt(k))
  }

  function SampleWith(text: string): Spec
  {
    Spec("title", 1, 60_000,
         [CharacterBible("c", "Lin", "tall", [AssetVersion("a0", 1)], "a0")],
         [SceneBible("s0", 0, "street", "night", [AssetVersion("a1", 1)], "a1"),
          SceneBible("s1", 1, "room", "day", [AssetVersion("a2", 1)], "a2")],
         [DialogueLine("l", 0, "s0", "c", text, 0, 1000)],
         FirstShots(8))
  }

  lemma FirstShotsInit(n: nat)
    requires n > 0
    ensures FirstShots(n)[..n - 1] == FirstShots(n - 1) && FirstShots(n)[n - 1] == ShotAt(n - 1)
  {}

  lemma {:induction false} FirstShotsByScene(n: nat)
    requires n <= 8
    ensures |ShotsIn(FirstShots(n), "s0")| == if n < 4 then n else 4
    ensures |ShotsIn(FirstShots(n), "s1")| == if n < 4 then 0 else n - 4
  {
    if n > 0 {
      FirstShotsInit(n);
      FirstShotsByScene(n - 1);
      assert "s0" != "s1" by { assert "s0"[1] != "s1"[1]; }
    }
  }

  lemma {:induction false} FirstShotsCast(n: nat)
    ensures ShotsWith(FirstShots(n), "c") == FirstShots(n)
    ensures Lines(FirstShots(n)) == if n == 0 then [] else ["l"]
  {
    if n > 0 {
      FirstShotsInit(n);
      FirstShotsCast(n - 1);
      assert "c" in ShotAt(n - 1).characterIds by { assert CAST[0] == "c"; }
      assert FirstShots(n) == FirstShots(n - 1) + [ShotAt(n - 1)];
    }
  }

  lemma {:induction false} FirstShotsLast(n: nat)
    ensures Sum(Durations(FirstShots(n))) == 7500 * n
  {
    if n > 0 {
      FirstShotsInit(n);
      FirstShotsLast(n - 1);
      var ds := Durations(FirstShots(n));
      assert ds[..|ds| - 1] == Durations(FirstShots(n - 1));
    }
  }

  lemma SampleNames(text: string)
    ensures var spec := SampleWith(text);
            && CharacterIds(spec.characterBibles) == ["c"] && SceneIds(spec.sceneBibles) == ["s0", "s1"]
            && LineIds(spec.dialogue) == ["l"]
            && CharacterAssets(spec.characterBibles) == ["a0"] && SceneAssets(spec.sceneBibles) == ["a1", "a2"]
    ensures "s0" != "s1" && "a0" != "a1" && "a0" != "a2" && "a1" != "a2"
  {
    var spec := SampleWith(text);
    assert VersionIds(spec.characterBibles[0].assetVersions) == ["a0"];
    assert VersionIds(spec.sceneBibles[0].assetVersions) == ["a1"] && VersionIds(spec.sceneBibles[1].assetVersions) == ["a2"];
    assert spec.sceneBibles[..2][..1] == [spec.sceneBibles[0]] && spec.sceneBibles[..1][..0] == [];
    assert spec.characterBibles[..0] == [] && spec.sceneBibles[..1] == [spec.sceneBibles[0]];
    assert SceneAssets([spec.sceneBibles[0]]) == ["a1"] by { assert [spec.sceneBibles[0]][..0] == []; }
    assert "s0"[1] != "s1"[1] && "a0"[1] != "a1"[1] && "a0"[1] != "a2"[1] && "a1"[1] != "a2"[1];
  }

  lemma SampleAssets(text: string)
    ensures forall b | b in SampleWith(text).characterBibles :: ValidAssets(b.assetVersions, b.activeAssetVersionId)
    ensures forall b | b in SampleWith(text).sceneBibles :: ValidAssets(b.assetVersions, b.activeAssetVersionId)
  {
    OneAssetIsValid("a0");
    OneAssetIsValid("a1");
    OneAssetIsValid("a2");
  }

  lemma OneAssetIsValid(id: string)
    ensures ValidAssets([AssetVersion(id, 1)], id)
  {
    assert VersionIds([AssetVersion(id, 1)]) == [id];
  }

  lemma SampleParts(text: string)
    requires 1 <= |text| <= 2000
    ensures ValidParts(SampleWith(text))
  {
    var spec := SampleWith(text);
    SampleAssets(text);
    forall s | s in spec.shots ensures ValidShot(s) { SampleShotIsValid(s); }
  }

  lemma SampleCastAndDialogue(text: string)
    ensures ValidCast(SampleWith(text)) && ValidDialogue(SampleWith(text))
  {
    SampleNames(text);
    assert "c" in ["c"] && "s0" in ["s0", "s1"];
  }

  lemma SampleShotIsValid(s: Shot)
    requires exists k | 0 <= k < 8 :: s == ShotAt(k)
    ensures ValidShot(s)
  {
    assert CAST[0] == "c" && Members(CAST) == {"c"};
  }

  lemma SampleShotFits(text: string, k: nat)
    requires k < 8
    ensures ShotFits(SampleWith(text), ShotAt(k))
  {
    var spec := SampleWith(text);
    SampleNames(text);
    assert LineIds(spec.dialogue)[0] == "l" && "l" in LineIds(spec.dialogue);
    assert LineOf(spec.dialogue, "l") == spec.dialogue[0];
    assert ["s0", "s1"][0] == "s0" && ["s0", "s1"][1] == "s1" && ["c"][0] == "c";
    assert CAST[0] == "c";
  }

  lemma SampleSceneOrdinals(text: string)
    ensures SceneOrdinal(SampleWith(text), "s0") == 0 && SceneOrdinal(SampleWith(text), "s1") == 1
  {
    SampleNames(text);
    assert ["s0", "s1"][0] == "s0" && ["s0", "s1"][1] == "s1";
  }

  lemma SampleTimeline()
    ensures Timeline(Starts(FirstShots(8)), Durations(FirstShots(8)), 60_000)
  {
    var shots := FirstShots(8);
    forall i | 0 <= i < 8 ensures Starts(shots)[i] == Sum(Durations(shots)[..i]) {
      FirstShotsLast(i);
      assert Durations(shots)[..i] == Durations(FirstShots(i));
    }
    FirstShotsLast(8);
  }

  lemma SampleCoverage(text: string)
    ensures ValidCoverage(SampleWith(text))
  {
    var spec := SampleWith(text);
    SampleNames(text);
    FirstShotsByScene(8);
    FirstShotsCast(8);
    assert spec.shots[0].sceneId == "s0" && spec.shots[4].sceneId == "s1";
    assert ScenesOf(spec.shots) == {"s0", "s1"} == Members(["s0", "s1"]);
  }

  /** The sample is valid whatever its one line says. */
  lemma SampleIsValid(text: string)
    requires 1 <= |text| <= 2000
    ensures ValidSpec(SampleWith(text))
  {
    SampleParts(text);
    SampleCastAndDialogue(text);
    forall k | 0 <= k < 8 ensures ShotFits(SampleWith(text), ShotAt(k)) { SampleShotFits(text, k); }
    SampleSceneOrdinals(text);
    SampleTimeline();
    SampleCoverage(text);
  }

  /** A whole valid sample whose only line is white space, which cleaning leaves empty. */
  lemma BlankLineIsAccepted()
    ensures ValidSpec(SampleWith(" ")) && SampleWith(" ").dialogue[0].text == " " && Clean(" ") == ""
  {
    SampleIsValid(" ");
    CleanIsEmptyExactlyForBlank(" ");
  }

  /** The printer refuses that sample. */
  method SubtitlesOfBlankSample() returns (r: Result<string, SrtError>)
    ensures ValidSpec(SampleWith(" ")) && r == Failure(EmptyText)
  {
    BlankLineIsAccepted();
    assert SampleWith(" ").dialogue[0] in SampleWith(" ").dialogue;
    r := SubtitlesForSample(SampleWith(" "));
  }
}
