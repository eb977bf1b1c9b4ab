/** The two-reviewer fold behind the creative metrics, its rounded rates, and the decision read from them. */
module ReviewMetrics {
  import opened Wrappers
  import opened TextTools
  import opened Counting

  /** What a storyboard shot contributes: its identity, its scene and the characters bound to it. */
  datatype BoundShot<Id> = BoundShot(id: Id, sceneId: string, characters: set<string>)

  datatype Assessment = Assessment(
    firstPassUsable: bool, shotIntentPass: bool, artifactFree: bool, characterContinuity: map<string, bool>,
    sceneContinuityPass: Option<bool>, criticalIdentityBreak: bool)

  datatype Review<Id> = Review(
    shotId: Id, sha256: string, firstAttemptSha256: string, attempts: nat, editor: Assessment, independent: Assessment)

  /** The contract of one imported shot. */
  predicate ValidReview<Id>(r: Review<Id>)
  {
    && 1 <= r.attempts <= 2
    && (r.attempts == 1 ==> r.firstAttemptSha256 == r.sha256)
    && (r.attempts == 2 ==> r.firstAttemptSha256 != r.sha256 && !r.editor.firstPassUsable && !r.independent.firstPassUsable)
  }

  // ---------- one review ----------

  datatype Effective = Effective(
    firstPass: bool, intent: bool, artifact: bool, characters: map<string, bool>, scene: Option<bool>,
    critical: bool, disagreement: bool)

  function Said(notes: map<string, bool>, c: string): bool { c in notes && notes[c] }

  function EffectiveReview(e: Assessment, i: Assessment): Effective
  {
    Effective(
      e.firstPassUsable && i.firstPassUsable, e.shotIntentPass && i.shotIntentPass, e.artifactFree && i.artifactFree,
      map c | c in e.characterContinuity.Keys + i.characterContinuity.Keys ::
        Said(e.characterContinuity, c) && Said(i.characterContinuity, c),
      if e.sceneContinuityPass.None? || i.sceneContinuityPass.None? then None
      else Some(e.sceneContinuityPass.value && i.sceneContinuityPass.value),
      e.criticalIdentityBreak || i.criticalIdentityBreak,
      e != i)
  }

  function Passing(notes: map<string, bool>): nat { |set c | c in notes && notes[c]| }

  lemma PassingIsBounded(notes: map<string, bool>)
    ensures Passing(notes) <= |notes.Keys|
  {
    SubsetSize((set c | c in notes && notes[c]), notes.Keys);
  }

  // ---------- the fold ----------

  datatype Totals = Totals(
    characterPasses: nat, characterTotal: nat, scenePasses: nat, sceneTotal: nat,
    firstPass: nat, intent: nat, artifact: nat, critical: nat, disagreement: nat, attempts: nat)

  const NO_TOTALS := Totals(0, 0, 0, 0, 0, 0, 0, 0, 0, 0)

  function One(b: bool): nat { if b then 1 else 0 }

  /** The shot a dictionary keyed by shot identity returns. */
  function ShotById<Id(==)>(shots: seq<BoundShot<Id>>, id: Id): Option<BoundShot<Id>>
  {
    if shots == [] then None
    else if shots[|shots| - 1].id == id then Some(shots[|shots| - 1])
    else ShotById(shots[..|shots| - 1], id)
  }

  /** No earlier shot has the scene of shot `i`. */
  predicate OpensScene<Id>(shots: seq<BoundShot<Id>>, i: nat)
    requires i < |shots|
  {
    forall j | 0 <= j < i :: shots[j].sceneId != shots[i].sceneId
  }

  function Openers<Id(==)>(shots: seq<BoundShot<Id>>): set<Id>
  {
    set i | 0 <= i < |shots| && OpensScene(shots, i) :: shots[i].id
  }

  /** The reviews speak of the bound characters, and of a scene boundary exactly when there is one. */
  predicate WellShaped<Id(==)>(shot: BoundShot<Id>, openers: set<Id>, r: Review<Id>)
  {
    && r.editor.characterContinuity.Keys == shot.characters && r.independent.characterContinuity.Keys == shot.characters
    && (r.shotId in openers ==> r.editor.sceneContinuityPass.None? && r.independent.sceneContinuityPass.None?)
    && (r.shotId !in openers ==> r.editor.sceneContinuityPass.Some? && r.independent.sceneContinuityPass.Some?)
  }

  predicate Admitted<Id(==)>(shots: seq<BoundShot<Id>>, openers: set<Id>, r: Review<Id>)
  {
    var shot := ShotById(shots, r.shotId);
    shot.Some? && WellShaped(shot.value, openers, r)
  }

  function AddReview<Id(==)>(t: Totals, openers: set<Id>, shot: BoundShot<Id>, r: Review<Id>): Totals
  {
    var e := EffectiveReview(r.editor, r.independent);
    var boundary := r.shotId !in openers;
    Totals(
      t.characterPasses + Passing(e.characters), t.characterTotal + |shot.characters|,
      t.scenePasses + One(boundary && e.scene == Some(true)), t.sceneTotal + One(boundary),
      t.firstPass + One(e.firstPass), t.intent + One(e.intent), t.artifact + One(e.artifact), t.critical + One(e.critical),
      t.disagreement + One(e.disagreement), t.attempts + r.attempts)
  }

  function Fold<Id(==)>(shots: seq<BoundShot<Id>>, openers: set<Id>, reviews: seq<Review<Id>>): Totals
    requires forall r | r in reviews :: ShotById(shots, r.shotId).Some?
  {
    if reviews == [] then NO_TOTALS
    else
      var last := reviews[|reviews| - 1];
      AddReview(Fold(shots, openers, reviews[..|reviews| - 1]), openers, ShotById(shots, last.shotId).value, last)
  }

  // ---------- rates ----------

  /** The integer nearest to a real; a tie goes to the even one. */
  function RoundHalfEven(x: real): int
  {
    var n := x.Floor;
    var d := x - n as real;
    if d < 0.5 || (d == 0.5 && n % 2 == 0) then n else n + 1
  }

  /** Division to 28 significant digits, for quotients of at most two. */
  ghost predicate Accurate(divide: (nat, nat) -> real)
  {
    forall p, t | t > 0 && p <= 2 * t ::
      var exact := p as real / t as real;
      exact - TINY <= divide(p, t) <= exact + TINY
  }

  const TINY := 0.000_000_000_000_000_000_000_000_001

  /** A rate in ten-thousandths; no rate is taken over nothing. */
  function Rate(divide: (nat, nat) -> real, passed: nat, total: nat): Option<int>
  {
    if total <= 0 then None else Some(RoundHalfEven(divide(passed, total) * 10_000.0))
  }

  lemma RoundingIsNear(x: real)
    ensures -0.5 <= RoundHalfEven(x) as real - x <= 0.5
  {}

  /** Two unequal fractions are at least one over the product of their denominators apart. */
  lemma FractionGap(p: nat, t: nat, a: nat, b: nat, mark: nat)
    requires 0 < b <= 10 && b * mark == 10_000 * a
    ensures p * b >= a * t ==> 10_000 * p >= mark * t
    ensures p * b < a * t ==> 10_000 * p <= mark * t - 1000
  {
    Cancel(b, 10_000 * p, mark * t, p * b - a * t);
    assert b * (mark * t) == 10_000 * a * t == 10_000 * (a * t);
    assert b * (10_000 * p) == 10_000 * (p * b);
  }

  lemma Cancel(b: nat, x: int, y: int, gap: int)
    requires 0 < b <= 10
    ensures b * x == b * y + 10_000 * gap && gap >= 0 ==> x >= y
    ensures b * x == b * y + 10_000 * gap && gap <= -1 ==> x <= y - 1000
  {
    assert b * (x - y) == b * x - b * y;
    if x < y { assert b * (x - y) < 0; }
    if x > y - 1000 { assert b * (x - y) > b * -1000 >= -10_000; }
  }

  lemma ScaledQuotient(p: nat, t: nat, mark: int)
    requires 0 < t <= 1000
    ensures 10_000 * p >= mark * t ==> p as real / t as real * 10_000.0 >= mark as real
    ensures 10_000 * p <= mark * t - 1000 ==> p as real / t as real * 10_000.0 <= mark as real - 1.0
  {
    var q, tr, m := p as real / t as real, t as real, mark as real;
    Quotient(p, t);
    assert (mark * t) as real == m * tr;
    if 10_000 * p >= mark * t { Cancellation(m, q * 10_000.0, tr); }
    if 10_000 * p <= mark * t - 1000 {
      Spread(m, tr);
      Cancellation(q * 10_000.0, m - 1.0, tr);
    }
  }

  lemma Quotient(p: nat, t: nat)
    requires 0 < t
    ensures var q := p as real / t as real; q * t as real == p as real && (q * 10_000.0) * t as real == 10_000.0 * p as real
  {}

  lemma Spread(m: real, t: real)
    ensures (m - 1.0) * t == m * t - t
  {}

  lemma Cancellation(x: real, y: real, t: real)
    requires t > 0.0 && x * t <= y * t
    ensures x <= y
  {
    assert x > y ==> (x - y) * t > 0.0;
  }

  /** Below a thousand cases, rounding never moves a rate across a threshold of at least a tenth's grain. */
  lemma RoundingKeepsThreshold(divide: (nat, nat) -> real, p: nat, t: nat, a: nat, b: nat, mark: nat)
    requires Accurate(divide) && 0 < t <= 1000 && p <= 2 * t && 0 < b <= 10 && b * mark == 10_000 * a
    ensures Rate(divide, p, t).value >= mark <==> p * b >= a * t
  {
    var q := divide(p, t) * 10_000.0;
    FractionGap(p, t, a, b, mark);
    ScaledQuotient(p, t, mark);
    RoundingIsNear(q);
  }

  /** With many cases it can: eight thousand nine hundred ninety-nine and a half ten-thousandths print as nine tenths. */
  lemma ManyCasesMoveARate(divide: (nat, nat) -> real)
    requires divide(17_999, 20_000) == 0.89995
    ensures Rate(divide, 17_999, 20_000) == Some(9_000) && 17_999 * 10 < 9 * 20_000
  {
    assert 0.89995 * 10_000.0 == 8_999.5;
  }

  lemma QuotientBetween(p: nat, t: nat, low: nat, high: nat)
    requires 0 < t && low * t <= p <= high * t
    ensures low as real <= p as real / t as real <= high as real
  {
    var q, tr := p as real / t as real, t as real;
    Quotient(p, t);
    assert (low * t) as real == low as real * tr && (high * t) as real == high as real * tr;
    Cancellation(low as real, q, tr);
    Cancellation(q, high as real, tr);
  }

  lemma {:induction false} AtMostTwice(p: nat, t: nat, high: nat)
    requires p <= high * t && high <= 2
    ensures p <= 2 * t
  {
    assert high == 0 || high == 1 || high == 2;
  }

  /** A quotient between two whole numbers rounds to a rate between them. */
  lemma RateInRange(divide: (nat, nat) -> real, p: nat, t: nat, low: nat, high: nat)
    requires Accurate(divide) && 0 < t && low * t <= p <= high * t && high <= 2
    ensures 10_000 * low <= Rate(divide, p, t).value <= 10_000 * high
  {
    QuotientBetween(p, t, low, high);
    AtMostTwice(p, t, high);
    var exact, d := p as real / t as real, divide(p, t);
    assert exact - TINY <= d <= exact + TINY;
    RoundingIsNear(d * 10_000.0);
  }

  // ---------- metrics and decision ----------

  /** Rates are in ten-thousandths. */
  datatype Metrics = Metrics(
    firstPass: int, character: int, scene: int, intent: int, artifact: int,
    criticalBreaks: nat, duplicates: int, averageAttempts: int)

  predicate InRange(m: Metrics)
  {
    && 0 <= m.firstPass <= 10_000 && 0 <= m.character <= 10_000 && 0 <= m.scene <= 10_000
    && 0 <= m.intent <= 10_000 && 0 <= m.artifact <= 10_000
    && 0 <= m.duplicates && 10_000 <= m.averageAttempts <= 20_000
  }

  datatype Decision = PassSample | ReviseOffline | Stop

  function Decide(m: Metrics): Decision
  {
    if m.criticalBreaks > 0 then Stop
    else if m.character >= 9_000 && m.scene >= 9_000 && m.intent >= 8_000 && m.artifact >= 9_000 && m.firstPass >= 7_500
            && m.criticalBreaks == 0 && m.duplicates == 0
    then PassSample
    else ReviseOffline
  }

  function Digests<Id>(reviews: seq<Review<Id>>): seq<string>
  {
    seq(|reviews|, i requires 0 <= i < |reviews| => reviews[i].sha256)
  }

  function Duplicates<Id>(reviews: seq<Review<Id>>): int { |reviews| - |Members(Digests(reviews))| }

  lemma {:induction false} SizeOfMembers(xs: seq<string>)
    ensures |Members(xs)| <= |xs| && (|Members(xs)| == |xs| <==> Unique(xs))
    decreases |xs|
  {
    if xs != [] {
      var init, last := xs[..|xs| - 1], xs[|xs| - 1];
      SizeOfMembers(init);
      assert xs == init + [last];
      assert Members(xs) == Members(init) + {last};
      if last in init {
        var i :| 0 <= i < |init| && init[i] == last;
        assert xs[i] == xs[|xs| - 1];
      }
    }
  }

  /** The duplicate count is never negative, and zero exactly when all media differ. */
  lemma NoDuplicatesMeansDistinct<Id>(reviews: seq<Review<Id>>)
    ensures Duplicates(reviews) >= 0 && (Duplicates(reviews) == 0 <==> Unique(Digests(reviews)))
  {
    SizeOfMembers(Digests(reviews));
  }

  predicate Scorable(divide: (nat, nat) -> real, t: Totals, n: nat, duplicates: int)
  {
    n > 0 && t.characterTotal > 0 && t.sceneTotal > 0 && InRange(MetricsOf(divide, t, n, duplicates))
  }

  function MetricsOf(divide: (nat, nat) -> real, t: Totals, n: nat, duplicates: int): Metrics
    requires n > 0 && t.characterTotal > 0 && t.sceneTotal > 0
  {
    Metrics(
      Rate(divide, t.firstPass, n).value, Rate(divide, t.characterPasses, t.characterTotal).value,
      Rate(divide, t.scenePasses, t.sceneTotal).value, Rate(divide, t.intent, n).value, Rate(divide, t.artifact, n).value,
      t.critical, duplicates, Rate(divide, t.attempts, n).value)
  }

  datatype MetricsError = WrongOrder | WrongCharacters | UnexpectedBoundary | MissingBoundary | EmptyDenominator | OutOfRange

  predicate SameOrder<Id(==)>(shots: seq<BoundShot<Id>>, reviews: seq<Review<Id>>)
  {
    |shots| == |reviews| && forall i | 0 <= i < |shots| :: reviews[i].shotId == shots[i].id
  }

  lemma {:induction false} KnownShot<Id>(shots: seq<BoundShot<Id>>, i: nat)
    requires i < |shots|
    ensures ShotById(shots, shots[i].id).Some? && ShotById(shots, shots[i].id).value in shots
    decreases |shots|
  {
    if shots[|shots| - 1].id != shots[i].id { KnownShot(shots[..|shots| - 1], i); }
  }

  /** The first shot of every scene, found by remembering the scenes already seen. */
  method FirstSceneShots<Id(==)>(shots: seq<BoundShot<Id>>) returns (openers: set<Id>)
    ensures openers == Openers(shots)
  {
    openers := {};
    var seen: set<string> := {};
    for i := 0 to |shots|
      invariant forall s :: s in seen <==> exists k | 0 <= k < i :: shots[k].sceneId == s
      invariant openers == set k | 0 <= k < i && OpensScene(shots, k) :: shots[k].id
    {
      ghost var before := openers;
      if shots[i].sceneId !in seen {
        assert OpensScene(shots, i);
        openers := openers + {shots[i].id};
        seen := seen + {shots[i].sceneId};
      }
    }
  }

  method AdmitReview<Id(==)>(shot: BoundShot<Id>, openers: set<Id>, r: Review<Id>) returns (e: Option<MetricsError>)
    ensures e.None? <==> WellShaped(shot, openers, r)
  {
    if r.editor.characterContinuity.Keys != shot.characters || r.independent.characterContinuity.Keys != shot.characters {
      return Some(WrongCharacters);
    }
    if r.shotId in openers {
      if r.editor.sceneContinuityPass.Some? || r.independent.sceneContinuityPass.Some? {
        return Some(UnexpectedBoundary);
      }
    } else if r.editor.sceneContinuityPass.None? || r.independent.sceneContinuityPass.None? {
      return Some(MissingBoundary);
    }
    return None;
  }

  /** The loop over the reviews. */
  method Accumulate<Id(==)>(shots: seq<BoundShot<Id>>, openers: set<Id>, reviews: seq<Review<Id>>)
    returns (r: Result<Totals, MetricsError>)
    requires forall v | v in reviews :: ShotById(shots, v.shotId).Some?
    ensures r.Success? <==> forall v | v in reviews :: Admitted(shots, openers, v)
    ensures r.Success? ==> r.value == Fold(shots, openers, reviews)
  {
    var t := NO_TOTALS;
    for i := 0 to |reviews|
      invariant forall k | 0 <= k < i :: Admitted(shots, openers, reviews[k])
      invariant t == Fold(shots, openers, reviews[..i])
    {
      var review := reviews[i];
      assert reviews[..i + 1][..i] == reviews[..i];
      var shot := ShotById(shots, review.shotId).value;
      var error := AdmitReview(shot, openers, review);
      if error.Some? {
        assert !Admitted(shots, openers, review);
        return Failure(error.value);
      }
      t := AddReview(t, openers, shot, review);
    }
    assert reviews[..|reviews|] == reviews;
    return Success(t);
  }

  predicate AllAdmitted<Id(==)>(shots: seq<BoundShot<Id>>, reviews: seq<Review<Id>>)
  {
    SameOrder(shots, reviews) && forall v | v in reviews :: Admitted(shots, Openers(shots), v)
  }

  lemma OrderedReviewsAreKnown<Id>(shots: seq<BoundShot<Id>>, reviews: seq<Review<Id>>)
    requires SameOrder(shots, reviews)
    ensures forall v | v in reviews :: ShotById(shots, v.shotId).Some?
  {
    forall v | v in reviews ensures ShotById(shots, v.shotId).Some? {
      var i :| 0 <= i < |reviews| && reviews[i] == v;
      KnownShot(shots, i);
    }
  }

  method ReadTotals<Id(==)>(shots: seq<BoundShot<Id>>, reviews: seq<Review<Id>>) returns (r: Result<Totals, MetricsError>)
    ensures r.Success? <==> AllAdmitted(shots, reviews)
    ensures r.Success? ==> r.value == Fold(shots, Openers(shots), reviews)
  {
    if |shots| != |reviews| || !(forall i | 0 <= i < |shots| :: reviews[i].shotId == shots[i].id) {
      return Failure(WrongOrder);
    }
    OrderedReviewsAreKnown(shots, reviews);
    var openers := FirstSceneShots(shots);
    r := Accumulate(shots, openers, reviews);
  }

  method DeriveReviewMetrics<Id(==)>(divide: (nat, nat) -> real, shots: seq<BoundShot<Id>>, reviews: seq<Review<Id>>, imported: bool)
    returns (r: Result<Option<Metrics>, MetricsError>)
    ensures r.Success? ==> AllAdmitted(shots, reviews)
    ensures AllAdmitted(shots, reviews) ==>
      var t := Fold(shots, Openers(shots), reviews);
      && (r.Success? <==> !imported || Scorable(divide, t, |reviews|, Duplicates(reviews)))
      && (r.Success? ==> r.value == if imported then Some(MetricsOf(divide, t, |reviews|, Duplicates(reviews))) else None)
  {
    var totals := ReadTotals(shots, reviews);
    if totals.Failure? {
      return Failure(totals.error);
    }
    if !imported {
      return Success(None);
    }
    var t, n := totals.value, |reviews|;
    if n <= 0 || t.characterTotal <= 0 || t.sceneTotal <= 0 {
      return Failure(EmptyDenominator);
    }
    var metrics := MetricsOf(divide, t, n, Duplicates(reviews));
    if !InRange(metrics) {
      return Failure(OutOfRange);
    }
    return Success(Some(metrics));
  }
}
