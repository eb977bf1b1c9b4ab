/** The metrics of a compiled sample: they are always defined, in range, and decide exactly on the integer counts. */
module SampleMetrics {
  import opened Wrappers
  import opened TextTools
  import CS = CreativeSpec
  import CC = CreativeCompiler
  import Totality = CreativeTotality
  import opened ReviewMetrics

  // ---------- bounds on the fold ----------

  predicate Ready<Id(==)>(shots: seq<BoundShot<Id>>, openers: set<Id>, reviews: seq<Review<Id>>)
  {
    forall v | v in reviews :: Admitted(shots, openers, v) && ValidReview(v)
  }

  predicate Bounded(t: Totals, n: nat)
  {
    && t.characterPasses <= t.characterTotal && t.scenePasses <= t.sceneTotal <= n
    && t.firstPass <= n && t.intent <= n && t.artifact <= n && t.critical <= n
    && n <= t.attempts && t.attempts + t.firstPass <= 2 * n
  }

  lemma OneReviewIsBounded<Id>(openers: set<Id>, shot: BoundShot<Id>, r: Review<Id>)
    requires WellShaped(shot, openers, r) && ValidReview(r)
    ensures Bounded(AddReview(NO_TOTALS, openers, shot, r), 1)
  {
    var e := EffectiveReview(r.editor, r.independent);
    PassingIsBounded(e.characters);
    assert e.characters.Keys == shot.characters;
  }

  /** A replacement take is never first-pass usable, so attempts and first passes share a budget of two per shot. */
  lemma {:induction false} FoldIsBounded<Id>(shots: seq<BoundShot<Id>>, openers: set<Id>, reviews: seq<Review<Id>>)
    requires Ready(shots, openers, reviews)
    ensures Bounded(Fold(shots, openers, reviews), |reviews|)
    decreases |reviews|
  {
    if reviews != [] {
      var n := |reviews| - 1;
      var last := reviews[n];
      assert last in reviews;
      FoldIsBounded(shots, openers, reviews[..n]);
      OneReviewIsBounded(openers, ShotById(shots, last.shotId).value, last);
    }
  }

  // ---------- the decision ----------

  /** The thresholds on the unrounded counts. */
  predicate CountsPass(t: Totals, n: nat)
  {
    && 10 * t.characterPasses >= 9 * t.characterTotal && 10 * t.scenePasses >= 9 * t.sceneTotal
    && 5 * t.intent >= 4 * n && 10 * t.artifact >= 9 * n && 4 * t.firstPass >= 3 * n
  }

  lemma ThresholdsAreExact(divide: (nat, nat) -> real, t: Totals, n: nat, duplicates: int)
    requires Accurate(divide) && Bounded(t, n)
    requires 0 < n <= 1000 && 0 < t.characterTotal <= 1000 && 0 < t.sceneTotal
    ensures var m := MetricsOf(divide, t, n, duplicates);
            CountsPass(t, n) <==>
              m.character >= 9_000 && m.scene >= 9_000 && m.intent >= 8_000 && m.artifact >= 9_000 && m.firstPass >= 7_500
  {
    RoundingKeepsThreshold(divide, t.characterPasses, t.characterTotal, 9, 10, 9_000);
    RoundingKeepsThreshold(divide, t.scenePasses, t.sceneTotal, 9, 10, 9_000);
    RoundingKeepsThreshold(divide, t.intent, n, 4, 5, 8_000);
    RoundingKeepsThreshold(divide, t.artifact, n, 9, 10, 9_000);
    RoundingKeepsThreshold(divide, t.firstPass, n, 3, 4, 7_500);
  }

  lemma MetricsAreInRange(divide: (nat, nat) -> real, t: Totals, n: nat, duplicates: nat)
    requires Accurate(divide) && Bounded(t, n) && 0 < n && 0 < t.characterTotal && 0 < t.sceneTotal
    ensures Scorable(divide, t, n, duplicates)
  {
    RateInRange(divide, t.characterPasses, t.characterTotal, 0, 1);
    RateInRange(divide, t.scenePasses, t.sceneTotal, 0, 1);
    RateInRange(divide, t.intent, n, 0, 1);
    RateInRange(divide, t.artifact, n, 0, 1);
    RateInRange(divide, t.firstPass, n, 0, 1);
    RateInRange(divide, t.attempts, n, 1, 2);
  }

  /** A passing sample averages at most a take and a quarter per shot. */
  lemma PassBoundsAttempts(divide: (nat, nat) -> real, t: Totals, n: nat, duplicates: nat)
    requires Accurate(divide) && Bounded(t, n) && 0 < n <= 1000 && 0 < t.characterTotal <= 1000 && 0 < t.sceneTotal
    requires Decide(MetricsOf(divide, t, n, duplicates)) == PassSample
    ensures 4 * t.attempts <= 5 * n
  {
    ThresholdsAreExact(divide, t, n, duplicates);
  }

  // ---------- the compiled sample ----------

  function BoundShots(shots: seq<CC.StoryboardShot>): seq<BoundShot<CC.Id>>
  {
    seq(|shots|, i requires 0 <= i < |shots| =>
      BoundShot(shots[i].id, shots[i].body.sceneBibleId, Members(CC.BoundCharacters(shots[i].body.characterAssets))))
  }

  /** What the compiler guarantees about the shots the reviews are folded over. */
  predicate TwoBlocks<Id(==)>(shots: seq<BoundShot<Id>>, k: nat)
  {
    && 0 < k < |shots|
    && (forall i, j | 0 <= i < j < |shots| :: shots[i].id != shots[j].id)
    && (forall i, j | 0 <= i < |shots| && 0 <= j < |shots| :: shots[i].sceneId == shots[j].sceneId <==> (i < k <==> j < k))
  }

  lemma OpenersOfBlocks<Id>(shots: seq<BoundShot<Id>>, k: nat, i: nat)
    requires TwoBlocks(shots, k) && i < |shots|
    ensures shots[i].id in Openers(shots) <==> i == 0 || i == k
  {
    assert OpensScene(shots, i) <==> i == 0 || i == k by {
      if i != 0 && i != k {
        var j := if i < k then 0 else k;
        assert shots[j].sceneId == shots[i].sceneId;
      }
    }
  }

  lemma {:induction false} BoundaryCount<Id>(shots: seq<BoundShot<Id>>, openers: set<Id>, reviews: seq<Review<Id>>, k: nat, n: nat)
    requires n <= |reviews| && 0 < k && forall v | v in reviews :: ShotById(shots, v.shotId).Some?
    requires forall i | 0 <= i < |reviews| :: reviews[i].shotId in openers <==> i == 0 || i == k
    ensures Fold(shots, openers, reviews[..n]).sceneTotal == n - One(n > 0) - One(n > k)
    decreases n
  {
    if n > 0 {
      assert reviews[..n][..n - 1] == reviews[..n - 1];
      BoundaryCount(shots, openers, reviews, k, n - 1);
    }
  }

  lemma {:induction false} UniqueLookup<Id>(shots: seq<BoundShot<Id>>, i: nat)
    requires i < |shots| && forall a, b | 0 <= a < b < |shots| :: shots[a].id != shots[b].id
    ensures ShotById(shots, shots[i].id) == Some(shots[i])
    decreases |shots|
  {
    if i < |shots| - 1 { UniqueLookup(shots[..|shots| - 1], i); }
  }

  lemma OneMoreAppearance<Id>(shots: seq<BoundShot<Id>>, openers: set<Id>, reviews: seq<Review<Id>>, n: nat)
    requires SameOrder(shots, reviews) && n < |shots|
    requires forall a, b | 0 <= a < b < |shots| :: shots[a].id != shots[b].id
    requires forall v | v in reviews :: ShotById(shots, v.shotId).Some?
    ensures Fold(shots, openers, reviews[..n + 1]).characterTotal
            == Fold(shots, openers, reviews[..n]).characterTotal + |shots[n].characters|
  {
    assert reviews[..n + 1][..n] == reviews[..n];
    UniqueLookup(shots, n);
  }

  /** The appearances add up over the shots, each of which binds at most `cap` characters. */
  lemma {:induction false} AppearanceCount<Id>(
    shots: seq<BoundShot<Id>>, openers: set<Id>, reviews: seq<Review<Id>>, cap: nat, i: nat, n: nat)
    requires SameOrder(shots, reviews) && i < |shots| && n <= |shots|
    requires forall a, b | 0 <= a < b < |shots| :: shots[a].id != shots[b].id
    requires forall a | 0 <= a < |shots| :: |shots[a].characters| <= cap
    requires forall v | v in reviews :: ShotById(shots, v.shotId).Some?
    ensures Fold(shots, openers, reviews[..n]).characterTotal <= cap * n
    ensures i < n ==> Fold(shots, openers, reviews[..n]).characterTotal >= |shots[i].characters|
    decreases n
  {
    if n > 0 {
      AppearanceCount(shots, openers, reviews, cap, i, n - 1);
      OneMoreAppearance(shots, openers, reviews, n - 1);
      assert cap * n == cap * (n - 1) + cap;
    }
  }

  lemma FewMembers(xs: seq<string>)
    ensures |Members(xs)| <= |xs|
  {
    SizeOfMembers(xs);
  }

  /** Different positions compile to different shots: the ordinal is part of the identity. */
  lemma CompiledShotsDiffer(spec: CS.Spec, i: nat, j: nat)
    requires CC.Compilable(spec) && i < j < |spec.shots| && CS.ValidShots(spec)
    ensures CC.PirOf(spec).shots[i].id != CC.PirOf(spec).shots[j].id
  {
    assert CC.StoryboardAt(spec, i).body.ordinal == i && CC.StoryboardAt(spec, j).body.ordinal == j;
  }

  lemma CompiledShot(spec: CS.Spec, i: nat)
    requires CC.Compilable(spec) && i < |spec.shots|
    ensures var b := BoundShots(CC.PirOf(spec).shots)[i];
            b.id == CC.PirOf(spec).shots[i].id && b.sceneId == spec.shots[i].sceneId
            && b.characters == Members(spec.shots[i].characterIds) && |b.characters| <= 2
  {
    var s := spec.shots[i];
    assert CS.ShotFits(spec, s) && CS.ValidShot(s);
    assert CC.BoundCharacters(CC.BindingsOf(spec, s.characterIds)) == s.characterIds;
    FewMembers(s.characterIds);
  }

  lemma SomeoneAppears(spec: CS.Spec) returns (i: nat)
    requires CS.ValidParts(spec) && CS.CastCovered(spec)
    ensures i < |spec.shots| && spec.shots[i].characterIds != []
  {
    var id := spec.characterBibles[0].characterId;
    assert CS.CharacterIds(spec.characterBibles)[0] == id;
    CS.ShotsWithMembers(spec.shots, id);
    var s := CS.ShotsWith(spec.shots, id)[0];
    assert s in spec.shots;
    i :| 0 <= i < |spec.shots| && spec.shots[i] == s;
  }

  lemma CompiledBlocks(spec: CS.Spec) returns (k: nat)
    requires CS.ValidSpec(spec)
    ensures CC.Compilable(spec) && |BoundShots(CC.PirOf(spec).shots)| == |spec.shots|
    ensures TwoBlocks(BoundShots(CC.PirOf(spec).shots), k)
  {
    k := Totality.ScenesAreHalves(spec);
    Totality.ValidIsCompilable(spec);
    var shots := BoundShots(CC.PirOf(spec).shots);
    forall i | 0 <= i < |shots| ensures shots[i].sceneId == spec.shots[i].sceneId && shots[i].id == CC.PirOf(spec).shots[i].id {
      CompiledShot(spec, i);
    }
    forall i, j | 0 <= i < j < |shots| ensures shots[i].id != shots[j].id { CompiledShotsDiffer(spec, i, j); }
  }

  lemma BoundariesOfBlocks(shots: seq<BoundShot<CC.Id>>, reviews: seq<Review<CC.Id>>, k: nat)
    requires TwoBlocks(shots, k) && SameOrder(shots, reviews)
    requires forall v | v in reviews :: ShotById(shots, v.shotId).Some?
    ensures Fold(shots, Openers(shots), reviews).sceneTotal == |reviews| - 2
  {
    forall i | 0 <= i < |reviews| ensures reviews[i].shotId in Openers(shots) <==> i == 0 || i == k {
      OpenersOfBlocks(shots, k, i);
    }
    BoundaryCount(shots, Openers(shots), reviews, k, |reviews|);
    assert reviews[..|reviews|] == reviews;
  }

  /** Shots as a compiled sample has them: two blocks, at most two characters each, and someone in shot `i`. */
  predicate SampleShaped<Id(==)>(shots: seq<BoundShot<Id>>, k: nat, i: nat)
  {
    && 8 <= |shots| <= 12 && TwoBlocks(shots, k) && i < |shots| && shots[i].characters != {}
    && forall a | 0 <= a < |shots| :: |shots[a].characters| <= 2
  }

  lemma CompiledIsSampleShaped(spec: CS.Spec) returns (k: nat, i: nat)
    requires CS.ValidSpec(spec)
    ensures CC.Compilable(spec) && SampleShaped(BoundShots(CC.PirOf(spec).shots), k, i)
  {
    k := CompiledBlocks(spec);
    i := SomeoneAppears(spec);
    forall a | 0 <= a < |spec.shots| ensures |BoundShots(CC.PirOf(spec).shots)[a].characters| <= 2 { CompiledShot(spec, a); }
    CompiledShot(spec, i);
    assert spec.shots[i].characterIds[0] in BoundShots(CC.PirOf(spec).shots)[i].characters;
  }

  lemma Appearances<Id>(shots: seq<BoundShot<Id>>, reviews: seq<Review<Id>>, k: nat, i: nat)
    requires SampleShaped(shots, k, i) && SameOrder(shots, reviews)
    requires forall v | v in reviews :: ShotById(shots, v.shotId).Some?
    ensures 0 < Fold(shots, Openers(shots), reviews).characterTotal <= 2 * |shots|
  {
    AppearanceCount(shots, Openers(shots), reviews, 2, i, |shots|);
    assert reviews[..|shots|] == reviews;
  }

  /** The integer form of the decision. */
  ghost predicate DecidesOnCounts<Id>(divide: (nat, nat) -> real, t: Totals, reviews: seq<Review<Id>>)
  {
    var n, d := |reviews|, Duplicates(reviews);
    && Scorable(divide, t, n, d)
    && (Decide(MetricsOf(divide, t, n, d)) == PassSample
        <==> CountsPass(t, n) && t.critical == 0 && Unique(Digests(reviews)))
    && (Decide(MetricsOf(divide, t, n, d)) == Stop <==> t.critical > 0)
  }

  lemma BoundedTotalsDecide<Id>(divide: (nat, nat) -> real, t: Totals, reviews: seq<Review<Id>>)
    requires Accurate(divide) && Bounded(t, |reviews|) && 0 < |reviews| <= 12 && 0 < t.characterTotal <= 24 && 0 < t.sceneTotal
    ensures DecidesOnCounts(divide, t, reviews)
  {
    NoDuplicatesMeansDistinct(reviews);
    MetricsAreInRange(divide, t, |reviews|, Duplicates(reviews));
    ThresholdsAreExact(divide, t, |reviews|, Duplicates(reviews));
  }

  lemma ShapedTotals(shots: seq<BoundShot<CC.Id>>, reviews: seq<Review<CC.Id>>, k: nat, i: nat)
    requires SampleShaped(shots, k, i) && AllAdmitted(shots, reviews) && forall v | v in reviews :: ValidReview(v)
    ensures forall v | v in reviews :: ShotById(shots, v.shotId).Some?
    ensures var t := Fold(shots, Openers(shots), reviews);
            && Bounded(t, |reviews|) && 0 < t.characterTotal <= 2 * |reviews| && t.sceneTotal == |reviews| - 2
  {
    OrderedReviewsAreKnown(shots, reviews);
    FoldIsBounded(shots, Openers(shots), reviews);
    BoundariesOfBlocks(shots, reviews, k);
    Appearances(shots, reviews, k, i);
  }

  /** For every compiled sample and every admitted review set the metrics exist, and pass exactly on the counts. */
  lemma SampleDecision(divide: (nat, nat) -> real, spec: CS.Spec, reviews: seq<Review<CC.Id>>)
    requires CS.ValidSpec(spec) && CC.Compilable(spec) && Accurate(divide)
    requires AllAdmitted(BoundShots(CC.PirOf(spec).shots), reviews) && forall v | v in reviews :: ValidReview(v)
    ensures var shots := BoundShots(CC.PirOf(spec).shots);
            var t := Fold(shots, Openers(shots), reviews);
            DecidesOnCounts(divide, t, reviews) && t.sceneTotal == |reviews| - 2
  {
    var shots := BoundShots(CC.PirOf(spec).shots);
    var k, i := CompiledIsSampleShaped(spec);
    ShapedTotals(shots, reviews, k, i);
    BoundedTotalsDecide(divide, Fold(shots, Openers(shots), reviews), reviews);
  }

  // ---------- the two reviewers ----------

  function Exchange<Id>(r: Review<Id>): Review<Id> { r.(editor := r.independent, independent := r.editor) }

  function Exchanged<Id>(reviews: seq<Review<Id>>): seq<Review<Id>>
  {
    if reviews == [] then [] else Exchanged(reviews[..|reviews| - 1]) + [Exchange(reviews[|reviews| - 1])]
  }

  lemma EffectiveIsSymmetric(e: Assessment, i: Assessment)
    ensures EffectiveReview(e, i) == EffectiveReview(i, e)
  {
    assert EffectiveReview(e, i).characters == EffectiveReview(i, e).characters;
  }

  lemma {:induction false} ExchangedKnown<Id>(shots: seq<BoundShot<Id>>, reviews: seq<Review<Id>>)
    requires forall v | v in reviews :: ShotById(shots, v.shotId).Some?
    ensures forall v | v in Exchanged(reviews) :: ShotById(shots, v.shotId).Some?
    decreases |reviews|
  {
    if reviews != [] {
      ExchangedKnown(shots, reviews[..|reviews| - 1]);
      assert reviews[|reviews| - 1] in reviews;
    }
  }

  lemma ExchangeChangesNoCount<Id>(t: Totals, openers: set<Id>, shot: BoundShot<Id>, r: Review<Id>)
    ensures AddReview(t, openers, shot, Exchange(r)) == AddReview(t, openers, shot, r)
  {
    EffectiveIsSymmetric(r.editor, r.independent);
  }

  /** Neither reviewer outranks the other: exchanging them changes no count. */
  lemma {:induction false} ReviewersAreInterchangeable<Id>(shots: seq<BoundShot<Id>>, openers: set<Id>, reviews: seq<Review<Id>>)
    requires forall v | v in reviews :: ShotById(shots, v.shotId).Some?
    requires forall v | v in Exchanged(reviews) :: ShotById(shots, v.shotId).Some?
    ensures Fold(shots, openers, Exchanged(reviews)) == Fold(shots, openers, reviews)
    decreases |reviews|
  {
    if reviews != [] {
      var n, all := |reviews| - 1, Exchanged(reviews);
      assert all[..|all| - 1] == Exchanged(reviews[..n]) && all[|all| - 1] == Exchange(reviews[n]);
      ReviewersAreInterchangeable(shots, openers, reviews[..n]);
      assert reviews[n] in reviews;
      ExchangeChangesNoCount(Fold(shots, openers, reviews[..n]), openers, ShotById(shots, reviews[n].shotId).value, reviews[n]);
    }
  }
}
