/** The whole-sample validator: one pass over the shots with running tallies. */
module CreativeValidator {
  import opened TextTools
  import opened CreativeSpec

  method CheckDialogue(spec: Spec) returns (ok: bool)
    ensures ok <==> ValidDialogue(spec)
  {
    if !Unique(LineIds(spec.dialogue)) || !(forall i | 0 <= i < |spec.dialogue| :: spec.dialogue[i].ordinal == i) {
      return false;
    }
    var knownCharacters := Members(CharacterIds(spec.characterBibles));
    var knownScenes := Members(SceneIds(spec.sceneBibles));
    for i := 0 to |spec.dialogue|
      invariant forall k | 0 <= k < i ::
        && spec.dialogue[k].characterId in CharacterIds(spec.characterBibles)
        && spec.dialogue[k].sceneId in SceneIds(spec.sceneBibles)
        && spec.dialogue[k].endMs <= spec.durationMs
    {
      var line := spec.dialogue[i];
      if line.characterId !in knownCharacters || line.sceneId !in knownScenes {
        return false;
      }
      if line.endMs > spec.durationMs {
        return false;
      }
    }
    var i := 1;
    while i < |spec.dialogue|
      invariant i == 1 || i <= |spec.dialogue|
      invariant i <= |spec.dialogue| ==> Spaced(spec.dialogue, i)
    {
      if spec.dialogue[i].startMs < spec.dialogue[i - 1].endMs {
        return false;
      }
      i := i + 1;
    }
    return true;
  }

  method CheckLines(dialogue: seq<DialogueLine>, s: Shot) returns (ok: bool)
    ensures ok <==> LinesFit(dialogue, s)
  {
    if exists id :: id in s.dialogueLineIds && id !in LineIds(dialogue) {
      return false;
    }
    if !(forall j, k | 0 <= j < k < |s.dialogueLineIds| ::
           LineOf(dialogue, s.dialogueLineIds[j]).ordinal <= LineOf(dialogue, s.dialogueLineIds[k]).ordinal) {
      return false;
    }
    for k := 0 to |s.dialogueLineIds|
      invariant forall j | 0 <= j < k ::
        var line := LineOf(dialogue, s.dialogueLineIds[j]);
        && line.sceneId == s.sceneId && line.characterId in s.characterIds
        && s.startMs <= line.startMs && line.endMs <= s.startMs + s.durationMs
    {
      var line := LineOf(dialogue, s.dialogueLineIds[k]);
      if line.sceneId != s.sceneId || line.characterId !in s.characterIds {
        return false;
      }
      if line.startMs < s.startMs || line.endMs > s.startMs + s.durationMs {
        return false;
      }
    }
    return true;
  }

  /** What the running tallies stand for after the given shots. */
  datatype Tally = Tally(
    cursor: nat, priorSceneOrdinal: nat, referencedScenes: set<string>, referencedCharacters: set<string>,
    referencedLines: seq<string>, sceneShotCounts: map<string, nat>,
    characterShotCounts: map<string, nat>, characterScenes: map<string, set<string>>)

  function CastOf(shots: seq<Shot>): set<string> { set s, c | s in shots && c in s.characterIds :: c }

  ghost predicate Tallied(spec: Spec, shots: seq<Shot>, t: Tally)
  {
    && t.cursor == Sum(Durations(shots))
    && t.priorSceneOrdinal == (if shots == [] then 0 else SceneOrdinal(spec, shots[|shots| - 1].sceneId))
    && t.referencedScenes == ScenesOf(shots) && t.referencedCharacters == CastOf(shots)
    && t.referencedLines == Lines(shots)
    && ScenesTallied(spec, shots, t.sceneShotCounts)
    && CastTallied(spec, shots, t.characterShotCounts, t.characterScenes)
  }

  ghost predicate ScenesTallied(spec: Spec, shots: seq<Shot>, counts: map<string, nat>)
  {
    && counts.Keys == Members(SceneIds(spec.sceneBibles))
    && forall id | id in counts :: counts[id] == |ShotsIn(shots, id)|
  }

  lemma SceneCountsOneMore(spec: Spec, shots: seq<Shot>, s: Shot, counts: map<string, nat>)
    requires ScenesTallied(spec, shots, counts) && s.sceneId in SceneIds(spec.sceneBibles)
    ensures s.sceneId in counts && ScenesTallied(spec, shots + [s], counts[s.sceneId := counts[s.sceneId] + 1])
  {
    assert (shots + [s])[..|shots + [s]| - 1] == shots;
  }

  ghost predicate CastTallied(spec: Spec, shots: seq<Shot>, counts: map<string, nat>, scenes: map<string, set<string>>)
  {
    && counts.Keys == scenes.Keys == Members(CharacterIds(spec.characterBibles))
    && (forall id | id in counts :: counts[id] == |ShotsWith(shots, id)| && scenes[id] == ScenesOf(ShotsWith(shots, id)))
  }

  method TallyCast(s: Shot, counts: map<string, nat>, scenes: map<string, set<string>>)
    returns (counts': map<string, nat>, scenes': map<string, set<string>>)
    requires Unique(s.characterIds) && counts.Keys == scenes.Keys
    requires forall c | c in s.characterIds :: c in counts
    ensures counts'.Keys == scenes'.Keys == counts.Keys
    ensures forall c | c in counts ::
      && counts'[c] == counts[c] + (if c in s.characterIds then 1 else 0)
      && scenes'[c] == scenes[c] + if c in s.characterIds then {s.sceneId} else {}
  {
    counts', scenes' := counts, scenes;
    for k := 0 to |s.characterIds|
      invariant counts'.Keys == scenes'.Keys == counts.Keys
      invariant forall c | c in counts ::
        && counts'[c] == counts[c] + (if c in s.characterIds[..k] then 1 else 0)
        && scenes'[c] == scenes[c] + if c in s.characterIds[..k] then {s.sceneId} else {}
    {
      var c := s.characterIds[k];
      assert s.characterIds[..k + 1] == s.characterIds[..k] + [c];
      counts' := counts'[c := counts'[c] + 1];
      scenes' := scenes'[c := scenes'[c] + {s.sceneId}];
    }
    assert s.characterIds[..|s.characterIds|] == s.characterIds;
  }

  lemma CastOneMore(spec: Spec, shots: seq<Shot>, s: Shot, counts: map<string, nat>, scenes: map<string, set<string>>,
                    counts': map<string, nat>, scenes': map<string, set<string>>)
    requires CastTallied(spec, shots, counts, scenes)
    requires counts'.Keys == scenes'.Keys == counts.Keys
    requires forall c | c in counts ::
      && counts'[c] == counts[c] + (if c in s.characterIds then 1 else 0)
      && scenes'[c] == scenes[c] + if c in s.characterIds then {s.sceneId} else {}
    ensures CastTallied(spec, shots + [s], counts', scenes')
  {
    assert (shots + [s])[..|shots + [s]| - 1] == shots;
    forall id | id in counts'
      ensures counts'[id] == |ShotsWith(shots + [s], id)| && scenes'[id] == ScenesOf(ShotsWith(shots + [s], id))
    {
      ScenesOneMore(ShotsWith(shots, id), s);
      assert ShotsWith(shots, id) + [] == ShotsWith(shots, id);
    }
  }

  lemma ScenesOneMore(shots: seq<Shot>, s: Shot)
    ensures ScenesOf(shots + [s]) == ScenesOf(shots) + {s.sceneId}
    ensures CastOf(shots + [s]) == CastOf(shots) + Members(s.characterIds)
  {
    forall x | x in ScenesOf(shots) + {s.sceneId} ensures x in ScenesOf(shots + [s]) {
      if x == s.sceneId { assert s in shots + [s]; } else {
        var y :| y in shots && y.sceneId == x;
        assert y in shots + [s];
      }
    }
    forall c | c in CastOf(shots) + Members(s.characterIds) ensures c in CastOf(shots + [s]) {
      if c in s.characterIds { assert s in shots + [s]; } else {
        var y :| y in shots && c in y.characterIds;
        assert y in shots + [s];
      }
    }
  }

  lemma DurationsOneMore(shots: seq<Shot>, s: Shot)
    ensures Sum(Durations(shots + [s])) == Sum(Durations(shots)) + s.durationMs
  {
    var ds := Durations(shots + [s]);
    assert ds[..|ds| - 1] == Durations(shots);
  }

  /** The body of the loop, for a shot that passed its own checks. */
  method TallyShot(spec: Spec, ghost shots: seq<Shot>, s: Shot, t: Tally) returns (t': Tally)
    requires Tallied(spec, shots, t) && ShotFits(spec, s) && ValidShot(s)
    ensures Tallied(spec, shots + [s], t')
  {
    AscendingIsUnique(s.characterIds);
    var counts, scenes := TallyCast(s, t.characterShotCounts, t.characterScenes);
    CastOneMore(spec, shots, s, t.characterShotCounts, t.characterScenes, counts, scenes);
    ScenesOneMore(shots, s);
    DurationsOneMore(shots, s);
    SceneCountsOneMore(spec, shots, s, t.sceneShotCounts);
    assert (shots + [s])[..|shots + [s]| - 1] == shots;
    t' := Tally(
      t.cursor + s.durationMs, SceneOrdinal(spec, s.sceneId),
      t.referencedScenes + {s.sceneId}, t.referencedCharacters + Members(s.characterIds),
      t.referencedLines + s.dialogueLineIds, t.sceneShotCounts[s.sceneId := t.sceneShotCounts[s.sceneId] + 1],
      counts, scenes);
  }

  predicate RisesAt(spec: Spec, k: nat)
    requires 0 < k < |spec.shots|
  {
    SceneOrdinal(spec, spec.shots[k - 1].sceneId) <= SceneOrdinal(spec, spec.shots[k].sceneId)
  }

  /** The loop's checks on shot `k`, stated on the whole sequence. */
  ghost predicate Passes(spec: Spec, k: nat)
    requires k < |spec.shots|
  {
    && ShotFits(spec, spec.shots[k])
    && spec.shots[k].startMs == Sum(Durations(spec.shots[..k]))
    && (k > 0 ==> RisesAt(spec, k))
  }

  lemma EmptyTally(spec: Spec)
    requires forall i | 0 <= i < |spec.sceneBibles| :: spec.sceneBibles[i].ordinal == i
    ensures Tallied(spec, [], NoTally(spec))
  {}

  function NoTally(spec: Spec): Tally
  {
    Tally(0, 0, {}, {}, [],
          map id | id in SceneIds(spec.sceneBibles) :: 0,
          map id | id in CharacterIds(spec.characterBibles) :: 0,
          map id | id in CharacterIds(spec.characterBibles) :: {})
  }

  method CheckShot(spec: Spec, i: nat, t: Tally) returns (ok: bool)
    requires i < |spec.shots| && Tallied(spec, spec.shots[..i], t)
    ensures ok <==> Passes(spec, i)
  {
    var s := spec.shots[i];
    if i > 0 { assert spec.shots[..i][|spec.shots[..i]| - 1] == spec.shots[i - 1]; }
    if s.startMs != t.cursor || s.sceneId !in SceneIds(spec.sceneBibles) {
      return false;
    }
    if SceneOrdinal(spec, s.sceneId) < t.priorSceneOrdinal {
      return false;
    }
    if !(forall c | c in s.characterIds :: c in CharacterIds(spec.characterBibles)) {
      return false;
    }
    ok := CheckLines(spec.dialogue, s);
  }

  /** One turn of the loop over the shots. */
  method TurnAt(spec: Spec, i: nat, t: Tally) returns (ok: bool, t': Tally)
    requires i < |spec.shots| && Tallied(spec, spec.shots[..i], t) && ValidShot(spec.shots[i])
    ensures ok <==> Passes(spec, i)
    ensures ok ==> Tallied(spec, spec.shots[..i + 1], t')
  {
    t' := t;
    ok := CheckShot(spec, i, t);
    if ok {
      assert spec.shots[..i + 1] == spec.shots[..i] + [spec.shots[i]];
      t' := TallyShot(spec, spec.shots[..i], spec.shots[i], t);
    }
  }

  /** The loop over the shots. */
  method CheckShots(spec: Spec) returns (ok: bool, t: Tally)
    requires forall s | s in spec.shots :: ValidShot(s)
    requires forall i | 0 <= i < |spec.sceneBibles| :: spec.sceneBibles[i].ordinal == i
    ensures ok <==> forall k | 0 <= k < |spec.shots| :: Passes(spec, k)
    ensures ok ==> Tallied(spec, spec.shots, t)
  {
    t := NoTally(spec);
    EmptyTally(spec);
    for i := 0 to |spec.shots|
      invariant Tallied(spec, spec.shots[..i], t)
      invariant forall k | 0 <= k < i :: Passes(spec, k)
    {
      ok, t := TurnAt(spec, i, t);
      if !ok {
        return false, t;
      }
    }
    assert spec.shots[..|spec.shots|] == spec.shots;
    return true, t;
  }

  lemma PassesMeansValid(spec: Spec)
    ensures (forall k | 0 <= k < |spec.shots| :: Passes(spec, k)) <==>
      && (forall s | s in spec.shots :: ShotFits(spec, s)) && InBlocks(spec, spec.shots)
      && (forall k | 0 <= k < |spec.shots| :: Starts(spec.shots)[k] == Sum(Durations(spec.shots)[..k]))
  {
    forall k | 0 <= k < |spec.shots| ensures Durations(spec.shots[..k]) == Durations(spec.shots)[..k] {}
    if forall k | 0 <= k < |spec.shots| :: Passes(spec, k) {
      forall s | s in spec.shots ensures ShotFits(spec, s) {
        var k :| 0 <= k < |spec.shots| && spec.shots[k] == s;
        assert Passes(spec, k);
      }
      forall k | 0 <= k < |spec.shots|
        ensures Starts(spec.shots)[k] == Sum(Durations(spec.shots)[..k])
        ensures k > 0 ==> RisesAt(spec, k)
      {
        assert Passes(spec, k);
      }
      forall i, j | 0 <= i < |spec.shots| && 0 <= j < |spec.shots| && j == i + 1
        ensures SceneOrdinal(spec, spec.shots[i].sceneId) <= SceneOrdinal(spec, spec.shots[j].sceneId)
      {
        assert RisesAt(spec, j);
      }
    }
  }

  /** The separate closure test on referenced scenes and characters adds nothing to the two count tests. */
  lemma CountsImplyReferences(spec: Spec)
    requires ScenesCovered(spec) && CastCovered(spec) && forall s | s in spec.shots :: ShotFits(spec, s)
    ensures ScenesOf(spec.shots) == Members(SceneIds(spec.sceneBibles))
    ensures CastOf(spec.shots) == Members(CharacterIds(spec.characterBibles))
  {
    forall id | id in SceneIds(spec.sceneBibles) ensures id in ScenesOf(spec.shots) {
      ShotsInMembers(spec.shots, id);
      assert ShotsIn(spec.shots, id)[0] in spec.shots;
    }
    forall id | id in CharacterIds(spec.characterBibles) ensures id in CastOf(spec.shots) {
      ShotsWithMembers(spec.shots, id);
      assert ShotsWith(spec.shots, id)[0] in spec.shots;
    }
  }

  method CheckSceneCounts(spec: Spec, t: Tally) returns (ok: bool)
    requires Tallied(spec, spec.shots, t)
    ensures ok <==> ScenesCovered(spec)
  {
    return forall id | id in t.sceneShotCounts :: t.sceneShotCounts[id] >= 3;
  }

  method CheckCastCounts(spec: Spec, counts: map<string, nat>, scenes: map<string, set<string>>) returns (ok: bool)
    requires CastTallied(spec, spec.shots, counts, scenes)
    ensures ok <==> CastCovered(spec)
  {
    var knownScenes := Members(SceneIds(spec.sceneBibles));
    for k := 0 to |spec.characterBibles|
      invariant forall j | 0 <= j < k :: var id := CharacterIds(spec.characterBibles)[j];
        |ShotsWith(spec.shots, id)| >= 3 && ScenesOf(ShotsWith(spec.shots, id)) == knownScenes
    {
      var id := CharacterIds(spec.characterBibles)[k];
      assert id in CharacterIds(spec.characterBibles);
      if counts[id] < 3 || scenes[id] != knownScenes {
        return false;
      }
    }
    return true;
  }

  /** The tests after the loop. */
  method CheckCoverage(spec: Spec, t: Tally) returns (ok: bool)
    requires Tallied(spec, spec.shots, t) && forall s | s in spec.shots :: ShotFits(spec, s)
    ensures ok <==> ValidCoverage(spec)
  {
    if ValidCoverage(spec) { CountsImplyReferences(spec); }
    if t.referencedScenes != Members(SceneIds(spec.sceneBibles))
       || t.referencedCharacters != Members(CharacterIds(spec.characterBibles)) {
      return false;
    }
    var scenesOk := CheckSceneCounts(spec, t);
    var castOk := CheckCastCounts(spec, t.characterShotCounts, t.characterScenes);
    return scenesOk && castOk && Unique(t.referencedLines)
           && Members(t.referencedLines) == Members(LineIds(spec.dialogue));
  }

  /** The loop and the two whole-timeline tests around it. */
  method CheckTimeline(spec: Spec) returns (ok: bool, t: Tally)
    requires forall s | s in spec.shots :: ValidShot(s)
    requires forall i | 0 <= i < |spec.sceneBibles| :: spec.sceneBibles[i].ordinal == i
    ensures ok <==> ValidShots(spec)
    ensures ok ==> Tallied(spec, spec.shots, t)
  {
    ok, t := CheckShots(spec);
    PassesMeansValid(spec);
    ok := ok && t.cursor == spec.durationMs && forall i | 0 <= i < |spec.shots| :: spec.shots[i].ordinal == i;
  }

  /** The pass accepts exactly the samples the declarative contract describes. */
  method ValidateCreativeSample(spec: Spec) returns (ok: bool)
    ensures ok <==> ValidSpec(spec)
  {
    if !ValidParts(spec) || !ValidCast(spec) {
      return false;
    }
    var dialogueOk := CheckDialogue(spec);
    if !dialogueOk {
      return false;
    }
    var shotsOk, t := CheckTimeline(spec);
    if !shotsOk {
      return false;
    }
    ok := CheckCoverage(spec, t);
  }
}
