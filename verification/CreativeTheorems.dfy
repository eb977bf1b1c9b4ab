/** What a validated sample guarantees downstream: scene blocks, dialogue order, and that no contract rejects. */
module CreativeTheorems {
  import opened TextTools
  import opened CreativeSpec

  // ---------- scene blocks ----------

  function SceneZero(spec: Spec): string requires |spec.sceneBibles| == 2 { spec.sceneBibles[0].sceneId }

  function SceneOne(spec: Spec): string requires |spec.sceneBibles| == 2 { spec.sceneBibles[1].sceneId }

  predicate TwoScenes(spec: Spec)
  {
    && |spec.sceneBibles| == 2 && SceneZero(spec) != SceneOne(spec)
    && spec.sceneBibles[0].ordinal == 0 && spec.sceneBibles[1].ordinal == 1
  }

  lemma TwoSceneOrdinals(spec: Spec, id: string)
    requires TwoScenes(spec) && id in SceneIds(spec.sceneBibles)
    ensures SceneIds(spec.sceneBibles) == [SceneZero(spec), SceneOne(spec)]
    ensures (id == SceneZero(spec) && SceneOrdinal(spec, id) == 0 && SceneOf(spec.sceneBibles, id) == spec.sceneBibles[0])
         || (id == SceneOne(spec) && SceneOrdinal(spec, id) == 1 && SceneOf(spec.sceneBibles, id) == spec.sceneBibles[1])
  {
    assert SceneIds(spec.sceneBibles) == [SceneZero(spec), SceneOne(spec)];
  }

  lemma {:induction false} ShotsInSplits(a: seq<Shot>, b: seq<Shot>, id: string)
    ensures ShotsIn(a + b, id) == ShotsIn(a, id) + ShotsIn(b, id)
    decreases |b|
  {
    if b == [] {
      assert a + b == a;
    } else {
      assert (a + b)[..|a + b| - 1] == a + b[..|b| - 1];
      ShotsInSplits(a, b[..|b| - 1], id);
    }
  }

  lemma {:induction false} ShotsInUniform(shots: seq<Shot>, here: string, id: string)
    requires forall i | 0 <= i < |shots| :: shots[i].sceneId == here
    ensures ShotsIn(shots, id) == if id == here then shots else []
    decreases |shots|
  {
    if shots != [] { ShotsInUniform(shots[..|shots| - 1], here, id); }
  }

  lemma Blocks(shots: seq<Shot>, first: string, second: string, k: nat)
    requires first != second && k <= |shots|
    requires forall i | 0 <= i < |shots| :: shots[i].sceneId == if i < k then first else second
    ensures ShotsIn(shots, first) == shots[..k] && ShotsIn(shots, second) == shots[k..]
  {
    assert shots == shots[..k] + shots[k..];
    forall id | id == first || id == second
      ensures ShotsIn(shots, id) == if id == first then shots[..k] else shots[k..]
    {
      ShotsInSplits(shots[..k], shots[k..], id);
      ShotsInUniform(shots[..k], first, id);
      ShotsInUniform(shots[k..], second, id);
    }
  }

  lemma {:induction false} Boundary(shots: seq<Shot>, first: string, second: string, n: nat) returns (k: nat)
    requires n <= |shots| && forall i | 0 <= i < |shots| :: shots[i].sceneId == first || shots[i].sceneId == second
    requires forall i, j | 0 <= i < |shots| && 0 <= j < |shots| && j == i + 1 && shots[i].sceneId == second ::
               shots[j].sceneId == second
    ensures k <= n && forall i | 0 <= i < n :: shots[i].sceneId == if i < k then first else second
    decreases n
  {
    if n == 0 {
      k := 0;
    } else {
      k := Boundary(shots, first, second, n - 1);
      if k < n - 1 { assert shots[n - 2].sceneId == second; }
      if shots[n - 1].sceneId == first { k := n; }
    }
  }

  /** Block order makes the first scene's shots a prefix and the second scene's the matching suffix. */
  lemma SceneBlocks(spec: Spec) returns (k: nat)
    requires TwoScenes(spec) && InBlocks(spec, spec.shots) && ScenesCovered(spec)
    requires forall s | s in spec.shots :: s.sceneId in SceneIds(spec.sceneBibles)
    ensures 3 <= k <= |spec.shots| - 3
    ensures ShotsIn(spec.shots, SceneZero(spec)) == spec.shots[..k]
    ensures ShotsIn(spec.shots, SceneOne(spec)) == spec.shots[k..]
    ensures forall i | 0 <= i < |spec.shots| ::
      spec.shots[i].sceneId == if i < k then SceneZero(spec) else SceneOne(spec)
  {
    forall i | 0 <= i < |spec.shots|
      ensures spec.shots[i].sceneId == SceneZero(spec) || spec.shots[i].sceneId == SceneOne(spec)
    {
      TwoSceneOrdinals(spec, spec.shots[i].sceneId);
    }
    forall i, j | 0 <= i < |spec.shots| && 0 <= j < |spec.shots| && j == i + 1 && spec.shots[i].sceneId == SceneOne(spec)
      ensures spec.shots[j].sceneId == SceneOne(spec)
    {
      TwoSceneOrdinals(spec, spec.shots[i].sceneId);
      TwoSceneOrdinals(spec, spec.shots[j].sceneId);
    }
    k := Boundary(spec.shots, SceneZero(spec), SceneOne(spec), |spec.shots|);
    Blocks(spec.shots, SceneZero(spec), SceneOne(spec), k);
    assert SceneIds(spec.sceneBibles) == [SceneZero(spec), SceneOne(spec)];
  }

  lemma {:induction false} LinesSplit(a: seq<Shot>, b: seq<Shot>)
    ensures Lines(a + b) == Lines(a) + Lines(b)
    decreases |b|
  {
    if b == [] {
      assert a + b == a;
    } else {
      assert (a + b)[..|a + b| - 1] == a + b[..|b| - 1];
      LinesSplit(a, b[..|b| - 1]);
    }
  }

  // ---------- the order of the dialogue ----------

  lemma {:induction false} LinesComeFromShots(shots: seq<Shot>, k: nat) returns (i: nat, j: nat)
    requires k < |Lines(shots)|
    ensures i < |shots| && j < |shots[i].dialogueLineIds| && shots[i].dialogueLineIds[j] == Lines(shots)[k]
    ensures k == |Lines(shots[..i])| + j
    decreases |shots|
  {
    var n := |shots| - 1;
    var before := Lines(shots[..n]);
    if k < |before| {
      i, j := LinesComeFromShots(shots[..n], k);
      assert shots[..n][..i] == shots[..i];
    } else {
      i, j := n, k - |before|;
    }
  }

  lemma {:induction false} LinesGrow(shots: seq<Shot>, i: nat, n: nat)
    requires i <= n <= |shots|
    ensures |Lines(shots[..i])| <= |Lines(shots[..n])|
    decreases n
  {
    if i < n {
      assert shots[..n][..n - 1] == shots[..n - 1];
      LinesGrow(shots, i, n - 1);
    }
  }

  lemma {:induction false} SumGrows(xs: seq<nat>, i: nat, n: nat)
    requires i < n <= |xs|
    ensures Sum(xs[..i]) + xs[i] <= Sum(xs[..n])
    decreases n
  {
    assert xs[..n][..n - 1] == xs[..n - 1];
    if i < n - 1 { SumGrows(xs, i, n - 1); }
  }

  lemma {:induction false} DialogueMovesForward(dialogue: seq<DialogueLine>, i: nat, j: nat)
    requires i < j < |dialogue|
    requires forall line | line in dialogue :: ValidLine(line)
    requires Spaced(dialogue, |dialogue|)
    ensures dialogue[i].endMs <= dialogue[j].startMs
    decreases j
  {
    if i < j - 1 {
      DialogueMovesForward(dialogue, i, j - 1);
      assert ValidLine(dialogue[j - 1]);
    }
  }

  predicate OrdinalsInPlace(dialogue: seq<DialogueLine>)
  {
    forall i | 0 <= i < |dialogue| :: dialogue[i].ordinal == i
  }

  lemma OrdinalOfLine(dialogue: seq<DialogueLine>, id: string)
    requires OrdinalsInPlace(dialogue) && id in LineIds(dialogue)
    ensures var n := LineOf(dialogue, id).ordinal;
            n < |dialogue| && dialogue[n] == LineOf(dialogue, id) && LineIds(dialogue)[n] == id
  {}

  /** Lines bound to a shot that ends first come first in the dialogue. */
  lemma IntervalsForceOrder(dialogue: seq<DialogueLine>, early: Shot, late: Shot, x: string, y: string)
    requires OrdinalsInPlace(dialogue) && LinesFit(dialogue, early) && LinesFit(dialogue, late)
    requires forall line | line in dialogue :: ValidLine(line)
    requires Spaced(dialogue, |dialogue|)
    requires x in early.dialogueLineIds && y in late.dialogueLineIds
    requires early.startMs + early.durationMs <= late.startMs
    ensures LineOf(dialogue, x).ordinal < LineOf(dialogue, y).ordinal
  {
    OrdinalOfLine(dialogue, x);
    OrdinalOfLine(dialogue, y);
    var m, n := LineOf(dialogue, x).ordinal, LineOf(dialogue, y).ordinal;
    assert ValidLine(dialogue[m]) && ValidLine(dialogue[n]);
    if n < m { DialogueMovesForward(dialogue, n, m); }
  }

  /** Later in the concatenation means a strictly larger ordinal. */
  lemma LaterLineHasLargerOrdinal(spec: Spec, p: nat, q: nat)
    requires OrdinalsInPlace(spec.dialogue) && forall line | line in spec.dialogue :: ValidLine(line)
    requires Spaced(spec.dialogue, |spec.dialogue|)
    requires forall i | 0 <= i < |spec.shots| :: LinesFit(spec.dialogue, spec.shots[i])
    requires Timeline(Starts(spec.shots), Durations(spec.shots), spec.durationMs)
    requires Unique(Lines(spec.shots)) && p < q < |Lines(spec.shots)|
    requires Lines(spec.shots)[p] in LineIds(spec.dialogue) && Lines(spec.shots)[q] in LineIds(spec.dialogue)
    ensures LineOf(spec.dialogue, Lines(spec.shots)[p]).ordinal < LineOf(spec.dialogue, Lines(spec.shots)[q]).ordinal
  {
    var i, a := LinesComeFromShots(spec.shots, p);
    var j, b := LinesComeFromShots(spec.shots, q);
    PositionsFollowShots(spec.shots, i, a, j, b);
    var x, y := Lines(spec.shots)[p], Lines(spec.shots)[q];
    if i < j {
      EarlierShotEndsFirst(spec, i, j);
      IntervalsForceOrder(spec.dialogue, spec.shots[i], spec.shots[j], x, y);
    } else {
      OrderedWithinShot(spec, spec.shots[i], a, b);
      OrdinalOfLine(spec.dialogue, x);
      OrdinalOfLine(spec.dialogue, y);
    }
  }

  lemma PositionsFollowShots(shots: seq<Shot>, i: nat, a: nat, j: nat, b: nat)
    requires i < |shots| && j < |shots| && a < |shots[i].dialogueLineIds| && b < |shots[j].dialogueLineIds|
    requires |Lines(shots[..i])| + a < |Lines(shots[..j])| + b
    ensures i < j || (i == j && a < b)
  {
    if j < i {
      assert shots[..j + 1][..j] == shots[..j];
      LinesGrow(shots, j + 1, i);
    }
  }

  lemma {:induction false} OrderedWithinShot(spec: Spec, s: Shot, a: nat, b: nat)
    requires LinesFit(spec.dialogue, s) && a < b < |s.dialogueLineIds|
    ensures LineOf(spec.dialogue, s.dialogueLineIds[a]).ordinal <= LineOf(spec.dialogue, s.dialogueLineIds[b]).ordinal
    decreases b
  {
    if a < b - 1 { OrderedWithinShot(spec, s, a, b - 1); }
  }

  lemma EarlierShotEndsFirst(spec: Spec, i: nat, j: nat)
    requires Timeline(Starts(spec.shots), Durations(spec.shots), spec.durationMs) && i < j < |spec.shots|
    ensures spec.shots[i].startMs + spec.shots[i].durationMs <= spec.shots[j].startMs
  {
    SumGrows(Durations(spec.shots), i, j);
    assert Starts(spec.shots)[i] == spec.shots[i].startMs && Starts(spec.shots)[j] == spec.shots[j].startMs;
  }

  lemma {:induction false} RisingIsAtLeast(xs: seq<nat>, p: nat)
    requires forall i, j | 0 <= i < j < |xs| :: xs[i] < xs[j]
    requires p < |xs|
    ensures p <= xs[p]
    decreases p
  {
    if p > 0 { RisingIsAtLeast(xs, p - 1); }
  }

  lemma Skipped(xs: seq<nat>, k: nat)
    requires k < |xs| && k < xs[k] && forall i, j | 0 <= i < j < |xs| :: xs[i] < xs[j]
    requires forall p | 0 <= p < k :: xs[p] == p
    ensures k !in xs
  {}

  /** A strictly rising enumeration of 0..n is the identity. */
  lemma {:induction false} RisingIsIdentity(xs: seq<nat>, n: nat, k: nat)
    requires forall p, q | 0 <= p < q < |xs| :: xs[p] < xs[q]
    requires forall x :: x in xs <==> 0 <= x < n
    requires k <= |xs|
    ensures k <= n && forall p | 0 <= p < k :: xs[p] == p
    decreases k
  {
    if k > 0 {
      RisingIsIdentity(xs, n, k - 1);
      RisingIsAtLeast(xs, k - 1);
      assert xs[k - 1] in xs && xs[k - 1] < n;
      if k - 1 < xs[k - 1] { Skipped(xs, k - 1); }
    }
  }

  function Ordinals(dialogue: seq<DialogueLine>, ids: seq<string>): seq<nat>
    requires forall id | id in ids :: id in LineIds(dialogue)
  {
    seq(|ids|, i requires 0 <= i < |ids| => LineOf(dialogue, ids[i]).ordinal)
  }

  lemma SameMembers(xs: seq<string>, ys: seq<string>)
    requires Members(xs) == Members(ys)
    ensures forall x :: x in xs <==> x in ys
  {
    forall x | x in xs ensures x in ys { assert x in Members(xs); }
    forall y | y in ys ensures y in xs { assert y in Members(ys); }
  }

  lemma OrdinalsCoverDialogue(dialogue: seq<DialogueLine>, ids: seq<string>)
    requires OrdinalsInPlace(dialogue) && Unique(LineIds(dialogue)) && forall id :: id in ids <==> id in LineIds(dialogue)
    ensures forall x :: x in Ordinals(dialogue, ids) <==> 0 <= x < |dialogue|
  {
    var ordinals := Ordinals(dialogue, ids);
    forall x | 0 <= x < |dialogue| ensures x in ordinals {
      assert LineIds(dialogue)[x] in ids;
      var p :| 0 <= p < |ids| && ids[p] == LineIds(dialogue)[x];
      assert ordinals[p] == x;
    }
    forall x | x in ordinals ensures 0 <= x < |dialogue| {
      var p :| 0 <= p < |ids| && ordinals[p] == x;
      OrdinalOfLine(dialogue, ids[p]);
    }
  }

  lemma RisingReferencesAreTheDialogue(dialogue: seq<DialogueLine>, ids: seq<string>)
    requires OrdinalsInPlace(dialogue) && Unique(LineIds(dialogue)) && forall id :: id in ids <==> id in LineIds(dialogue)
    requires forall p, q | 0 <= p < q < |ids| :: LineOf(dialogue, ids[p]).ordinal < LineOf(dialogue, ids[q]).ordinal
    ensures ids == LineIds(dialogue)
  {
    OrdinalsCoverDialogue(dialogue, ids);
    var ordinals := Ordinals(dialogue, ids);
    RisingIsIdentity(ordinals, |dialogue|, |ordinals|);
    var n: nat := |ids|;
    assert n in ordinals ==> n < n;
    forall p | 0 <= p < |ids| ensures ids[p] == LineIds(dialogue)[p] {
      OrdinalOfLine(dialogue, ids[p]);
      assert ordinals[p] == p;
    }
  }

  /** No validator checks this: read shot by shot, the references are the whole dialogue in ordinal order. */
  lemma DialogueOrder(spec: Spec)
    requires ValidSpec(spec)
    ensures Lines(spec.shots) == LineIds(spec.dialogue)
  {
    SameMembers(Lines(spec.shots), LineIds(spec.dialogue));
    forall i | 0 <= i < |spec.shots| ensures LinesFit(spec.dialogue, spec.shots[i]) {
      assert ShotFits(spec, spec.shots[i]);
    }
    forall p, q | 0 <= p < q < |Lines(spec.shots)|
      ensures LineOf(spec.dialogue, Lines(spec.shots)[p]).ordinal < LineOf(spec.dialogue, Lines(spec.shots)[q]).ordinal
    {
      LaterLineHasLargerOrdinal(spec, p, q);
    }
    RisingReferencesAreTheDialogue(spec.dialogue, Lines(spec.shots));
  }
}
