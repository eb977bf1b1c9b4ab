/**
 Quiet runs: other clients commit anything the schema allows, as long as no commit inserts a row, or
 moves one, into what the queries of a claimed or in-flight binding select. In these runs the
 classification of every claim is determined.
 */
module LedgerQuiet {
  import opened Wrappers
  import opened LedgerTables
  import opened LedgerSchema
  import opened LedgerClassify
  import opened LedgerMachine
  import opened LedgerSafety
  import opened LedgerTheorems

  /** The commit neither inserts an event, an authorization or an Attempt that `b` selects, nor renames one into its selection. */
  predicate QuietFor(db: Database, db': Database, b: Binding)
  {
    && SelectEvents(db', b) == SelectEvents(db, b)
    && SelectAuthorizations(db', b) == SelectAuthorizations(db, b)
    && forall q | q in SelectAttempts(db', b) :: exists r | r in SelectAttempts(db, b) :: TriggerAllowsUpdate(r, q)
  }

  /** The bindings whose queries still matter: claimed, or in a transaction right now. */
  predicate InPlay(s: State, b: Binding)
  {
    b in s.claims || exists p | 0 <= p < |s.tasks| :: !s.tasks[p].Idle? && s.tasks[p].task.b == b
  }

  ghost predicate QuietStep(s: State, a: Action)
  {
    a.Foreign? ==> forall b | InPlay(s, b) :: QuietFor(s.db, a.db, b)
  }

  ghost predicate QuietRun(s: State, run: seq<Action>)
    requires Legal(s, run)
    decreases |run|
  {
    run == [] || (QuietStep(s, run[0]) && QuietRun(Apply(s, run[0]), run[1..]))
  }

  // ---------- the stronger invariant ----------

  predicate Unselected(db: Database, b: Binding)
  {
    SelectAttempts(db, b) == {} && SelectAuthorizations(db, b) == {} && SelectEvents(db, b) == {}
  }

  predicate OwnEvent(e: EventRow, b: Binding, at: int)
  {
    e == NewClaimEvent(b, at) || (e.eventType == AcceptanceEvent && e.id == AcceptanceEventId(b))
  }

  predicate HasOwner(db: Database, b: Binding)
  {
    exists r | r in db.attempts :: r.id == AttemptIdOf(b) && !NoEvidenceColumns(r) && r.providerTaskId.Some?
  }

  /** A claimed binding selects the rows its claim and its ownership record wrote, and no others. */
  predicate OwnRows(db: Database, b: Binding, at: int)
  {
    && SelectAuthorizations(db, b) == {NewAuthorization(b, at)}
    && (forall r | r in SelectAttempts(db, b) :: ClaimedAttempt(r, b, at))
    && (forall e | e in SelectEvents(db, b) :: OwnEvent(e, b, at))
    && ((exists e | e in SelectEvents(db, b) :: e.eventType == AcceptanceEvent) ==> HasOwner(db, b))
  }

  predicate QuietPc(db: Database, pc: Pc)
  {
    && ((pc.LoadAuthorizations? || pc.LoadEvents?) && pc.task.ClaimTask? && pc.attempts == {} ==>
          SelectAttempts(db, pc.task.b) == {})
    && (pc.LoadEvents? && pc.task.ClaimTask? && pc.authorizations == {} ==>
          SelectAuthorizations(db, pc.task.b) == {})
    && (pc.WritingClaim? ==> Unselected(db, pc.task.b))
  }

  ghost predicate ClaimsOwnRows(db: Database, claims: map<Binding, int>)
  {
    forall b | b in claims :: OwnRows(db, b, claims[b])
  }

  ghost predicate QuietRest(s: State)
  {
    ClaimsOwnRows(s.db, s.claims) && forall p | 0 <= p < |s.tasks| :: QuietPc(s.db, s.tasks[p])
  }

  ghost predicate QuietInv(s: State) { Inv(s) && QuietRest(s) }

  // ---------- quiet commits keep it ----------

  lemma QuietKeepsOwner(db: Database, db': Database, b: Binding)
    requires TriggersAllow(db, db') && HasOwner(db, b)
    ensures HasOwner(db', b)
  {
    var r :| r in db.attempts && r.id == AttemptIdOf(b) && !NoEvidenceColumns(r) && r.providerTaskId.Some?;
    var q :| q in db'.attempts && TriggerAllowsUpdate(r, q);
    assert !NoEvidenceColumns(q);
  }

  lemma QuietKeepsOwnRows(db: Database, db': Database, b: Binding, at: int)
    requires TriggersAllow(db, db') && QuietFor(db, db', b) && OwnRows(db, b, at)
    ensures OwnRows(db', b, at)
  {
    if HasOwner(db, b) { QuietKeepsOwner(db, db', b); }
    forall q | q in SelectAttempts(db', b) ensures ClaimedAttempt(q, b, at) {
      var r :| r in SelectAttempts(db, b) && TriggerAllowsUpdate(r, q);
      assert ClaimedAttempt(r, b, at) && Protected(r);
    }
  }

  lemma QuietKeepsPc(db: Database, db': Database, pc: Pc)
    requires !pc.Idle? ==> QuietFor(db, db', pc.task.b)
    requires QuietPc(db, pc)
    ensures QuietPc(db', pc)
  {
    if !pc.Idle? && SelectAttempts(db, pc.task.b) == {} {
      assert SelectAttempts(db', pc.task.b) == {};
    }
  }

  // ---------- the ledger's own commits keep it ----------

  lemma SameRowsSameOwnRows(db: Database, db': Database, b: Binding, at: int)
    requires LoadRows(db', b) == LoadRows(db, b) && OwnRows(db, b, at) && (HasOwner(db, b) ==> HasOwner(db', b))
    ensures OwnRows(db', b, at)
  {
    var rows := LoadRows(db, b);
    assert SelectEvents(db', b) == rows.claimEvents + rows.acceptanceEvents + rows.unexpectedEvents;
    assert SelectEvents(db, b) == rows.claimEvents + rows.acceptanceEvents + rows.unexpectedEvents;
  }

  lemma NewClaimOwnsItsRows(db: Database, b: Binding, now: int)
    requires Unselected(db, b)
    ensures OwnRows(WriteClaim(db, b, now), b, now)
  {
    var db' := WriteClaim(db, b, now);
    assert SelectAuthorizations(db', b) == SelectAuthorizations(db, b) + {NewAuthorization(b, now)};
    assert SelectAttempts(db', b) == SelectAttempts(db, b) + {NewAttempt(b, now)};
    assert SelectEvents(db', b) == SelectEvents(db, b) + {NewClaimEvent(b, now)};
  }

  lemma NewOwnershipOwnsItsRows(db: Database, row: AttemptRow, b: Binding, receipt: Receipt, now: int, at: int)
    requires OwnRows(db, b, at) && row in db.attempts && AttemptMatches(row, b)
    ensures OwnRows(WriteOwnership(db, row, b, receipt, now), b, at)
  {
    var db' := WriteOwnership(db, row, b, receipt, now);
    var owned := OwnedAttempt(row, b, receipt.taskId, receipt.state, now);
    var event := NewAcceptanceEvent(b, receipt.taskId, receipt.state, now);
    assert row in SelectAttempts(db, b) && ClaimedAttempt(row, b, at);
    assert ClaimedAttempt(owned, b, at);
    assert owned in db'.attempts && HasOwner(db', b);
    assert SelectAuthorizations(db', b) == SelectAuthorizations(db, b);
    assert SelectEvents(db', b) == SelectEvents(db, b) + {event};
    assert SelectAttempts(db', b) <= SelectAttempts(db, b) + {owned};
  }

  lemma OwnerSurvivesLedgerWrites(db: Database, row: AttemptRow, b: Binding, receipt: Receipt, now: int, c: Binding)
    requires HasOwner(db, c) && row.providerTaskId.None?
    ensures HasOwner(WriteOwnership(db, row, b, receipt, now), c)
    ensures HasOwner(WriteClaim(db, b, now), c)
  {
    var r :| r in db.attempts && r.id == AttemptIdOf(c) && !NoEvidenceColumns(r) && r.providerTaskId.Some?;
    assert r in WriteOwnership(db, row, b, receipt, now).attempts && r in WriteClaim(db, b, now).attempts;
  }

  lemma ClaimKeepsOwnRows(db: Database, claims: map<Binding, int>, b: Binding, now: int)
    requires ClaimsOwnRows(db, claims) && Unselected(db, b) && forall c | c in claims :: KeysDisjoint(b, c)
    ensures ClaimsOwnRows(WriteClaim(db, b, now), claims[b := now])
  {
    var db' := WriteClaim(db, b, now);
    NewClaimOwnsItsRows(db, b, now);
    forall c | c in claims && c != b ensures OwnRows(db', c, claims[c]) {
      ClaimRowsInvisible(db, c, b, now);
      if HasOwner(db, c) {
        OwnerSurvivesLedgerWrites(db, NewAttempt(b, now), b, Receipt("", Queued), now, c);
      }
      SameRowsSameOwnRows(db, db', c, claims[c]);
    }
  }

  lemma OwnershipKeepsOwnRows(db: Database, claims: map<Binding, int>, row: AttemptRow, b: Binding, receipt: Receipt, now: int)
    requires ClaimsOwnRows(db, claims) && ClaimsDisjoint(claims) && b in claims
    requires row in db.attempts && AttemptMatches(row, b) && row.providerTaskId.None?
    ensures ClaimsOwnRows(WriteOwnership(db, row, b, receipt, now), claims)
  {
    var db' := WriteOwnership(db, row, b, receipt, now);
    NewOwnershipOwnsItsRows(db, row, b, receipt, now, claims[b]);
    forall c | c in claims && c != b ensures OwnRows(db', c, claims[c]) {
      assert KeysDisjoint(c, b);
      OwnershipRowsInvisible(db, row, c, b, receipt, now);
      if HasOwner(db, c) { OwnerSurvivesLedgerWrites(db, row, b, receipt, now, c); }
      SameRowsSameOwnRows(db, db', c, claims[c]);
    }
  }

  lemma CommitKeepsQuietPcs(s: State, s': State, c: nat)
    requires c < |s.tasks| && HoldsIdentity(s.tasks[c]) && LocksExclusive(s.tasks)
    requires s'.tasks == s.tasks[c := Idle] || s'.tasks == s.tasks[c := Rechecking(s.tasks[c].task, CommitResultUnknown)]
    ensures forall p | 0 <= p < |s'.tasks| :: QuietPc(s'.db, s'.tasks[p])
  {
    forall p | 0 <= p < |s.tasks| && p != c ensures QuietPc(s'.db, s.tasks[p]) {
      assert !HoldsIdentity(s.tasks[p]);
    }
  }

  lemma EmptyGroupsEmptyEvents(attempts: set<AttemptRow>, authorizations: set<AuthorizationRow>, events: set<EventRow>)
    requires GroupRows(attempts, authorizations, events) == LedgerRows({}, {}, {}, {}, {})
    ensures attempts == {} && authorizations == {} && events == {}
  {
    var rows := GroupRows(attempts, authorizations, events);
    assert events == rows.claimEvents + rows.acceptanceEvents + rows.unexpectedEvents;
  }

  lemma NoExistingMeansEmpty(rows: LedgerRows, b: Binding, runState: RunState)
    requires Classify(rows, b, runState).NoExisting?
    ensures rows == LedgerRows({}, {}, {}, {}, {})
  {
  }

  lemma StatementKeepsQuietPc(db: Database, pc: Pc, now: int)
    requires QuietPc(db, pc) && InReads(pc)
    ensures QuietPc(db, NextPc(db, pc, now))
  {
    if pc.LoadEvents? && pc.task.ClaimTask? && NextPc(db, pc, now).WritingClaim? {
      var rows := GroupRows(pc.attempts, pc.authorizations, SelectEvents(db, pc.task.b));
      NoExistingMeansEmpty(rows, pc.task.b, pc.runState);
      EmptyGroupsEmptyEvents(pc.attempts, pc.authorizations, SelectEvents(db, pc.task.b));
    }
  }

  lemma QuietForeignStep(s: State, db': Database)
    requires QuietRest(s) && TriggersAllow(s.db, db') && QuietStep(s, Foreign(db'))
    ensures QuietRest(s.(db := db'))
  {
    forall b | b in s.claims ensures OwnRows(db', b, s.claims[b]) {
      assert InPlay(s, b);
      QuietKeepsOwnRows(s.db, db', b, s.claims[b]);
    }
    forall p | 0 <= p < |s.tasks| ensures QuietPc(db', s.tasks[p]) {
      assert !s.tasks[p].Idle? ==> InPlay(s, s.tasks[p].task.b);
      QuietKeepsPc(s.db, db', s.tasks[p]);
    }
  }

  lemma QuietPcStep(s: State, p: nat, pc: Pc)
    requires QuietRest(s) && p < |s.tasks| && QuietPc(s.db, pc)
    ensures QuietRest(s.(tasks := s.tasks[p := pc]))
  {
  }

  lemma QuietClaimStep(s: State, p: nat, acknowledged: bool)
    requires QuietInv(s) && CanCommitClaim(s, p)
    ensures QuietRest(ClaimCommitted(s, p, acknowledged))
  {
    assert PcInv(s, s.tasks[p]) && QuietPc(s.db, s.tasks[p]);
    ClaimKeepsOwnRows(s.db, s.claims, s.tasks[p].task.b, s.tasks[p].now);
    CommitKeepsQuietPcs(s, ClaimCommitted(s, p, acknowledged), p);
  }

  lemma QuietOwnershipStep(s: State, p: nat, acknowledged: bool)
    requires QuietInv(s) && CanCommitOwnership(s, p)
    ensures QuietRest(OwnershipCommitted(s, p, acknowledged))
  {
    assert PcInv(s, s.tasks[p]);
    var WritingOwnership(t, now, row) := s.tasks[p];
    assert s.permits[t.permit].binding in s.claims;
    OwnershipKeepsOwnRows(s.db, s.claims, row, t.b, s.permits[t.permit].receipt.value, now);
    CommitKeepsQuietPcs(s, OwnershipCommitted(s, p, acknowledged), p);
  }

  lemma QuietTaskStep(s: State, a: Action)
    requires QuietRest(s) && Enabled(s, a) && (a.StartClaim? || a.StartRecord? || a.RollBack? || a.Recheck?)
    ensures QuietRest(Apply(s, a))
  {
    QuietPcStep(s, a.p, Apply(s, a).tasks[a.p]);
  }

  lemma QuietStepKeepsRest(s: State, a: Action)
    requires QuietInv(s) && Enabled(s, a) && QuietStep(s, a)
    ensures QuietRest(Apply(s, a))
  {
    match a
    case CommitClaim(p, acknowledged) => QuietClaimStep(s, p, acknowledged);
    case CommitOwnership(p, acknowledged) => QuietOwnershipStep(s, p, acknowledged);
    case Foreign(db) => QuietForeignStep(s, db);
    case Proceed(p, now) =>
      StatementKeepsQuietPc(s.db, s.tasks[p], now);
      QuietPcStep(s, p, NextPc(s.db, s.tasks[p], now));
    case Crash(_, _) =>
    case Consume(_) =>
    case IssueReceipt(_, _) =>
    case _ => QuietTaskStep(s, a);
  }

  lemma {:induction false} QuietRunKeepsInv(s: State, run: seq<Action>)
    requires QuietInv(s) && Legal(s, run) && QuietRun(s, run)
    ensures QuietInv(Exec(s, run))
    decreases |run|
  {
    if run != [] {
      StepKeepsInv(s, run[0]);
      QuietStepKeepsRest(s, run[0]);
      QuietRunKeepsInv(Apply(s, run[0]), run[1..]);
    }
  }

  // ---------- the classification of a claim in a quiet run ----------

  /** Storing the reviewed cost keeps it as it is: it has at most six decimals. */
  predicate CostIsStorable(b: Binding) { Numeric6(b.maxCost) == b.maxCost }

  lemma OwnRowsAreExact(db: Database, b: Binding, at: int, r: AttemptRow)
    requires Consistent(db) && Durable(db, b, at) && OwnRows(db, b, at)
    requires r in db.attempts && r.id == AttemptIdOf(b)
    ensures ClaimedAttempt(r, b, at)
    ensures LoadRows(db, b).attempts == {r} && LoadRows(db, b).authorizations == {NewAuthorization(b, at)}
    ensures LoadRows(db, b).claimEvents == {NewClaimEvent(b, at)} && LoadRows(db, b).unexpectedEvents == {}
  {
    var q :| q in db.attempts && ClaimedAttempt(q, b, at);
    assert AttemptsClash(q, r);
    forall x | x in SelectAttempts(db, b) ensures x == r { assert AttemptsClash(x, r); }
    assert NewClaimEvent(b, at) in SelectEvents(db, b);
    assert LoadRows(db, b).claimEvents == {NewClaimEvent(b, at)};
    assert LoadRows(db, b).unexpectedEvents == {};
  }

  lemma AcceptanceEventIsUnique(db: Database, b: Binding, at: int)
    requires Consistent(db) && OwnRows(db, b, at)
    ensures |LoadRows(db, b).acceptanceEvents| <= 1
  {
    var events := LoadRows(db, b).acceptanceEvents;
    if events != {} {
      var e :| e in events;
      forall f | f in events ensures f == e {
        assert OwnEvent(e, b, at) && OwnEvent(f, b, at);
        assert EventsClash(e, f);
      }
      assert events == {e};
    }
  }

  lemma UnownedHasNoAcceptance(db: Database, b: Binding, at: int, r: AttemptRow)
    requires Consistent(db) && OwnRows(db, b, at)
    requires r in db.attempts && r.id == AttemptIdOf(b) && r.providerTaskId.None?
    ensures LoadRows(db, b).acceptanceEvents == {}
  {
    if e :| e in LoadRows(db, b).acceptanceEvents {
      assert e in SelectEvents(db, b);
      var q :| q in db.attempts && q.id == AttemptIdOf(b) && q.providerTaskId.Some?;
      assert AttemptsClash(q, r);
      assert false;
    }
  }

  /** The classification of one claim's exact rows, whatever its acceptance events. */
  lemma ClassifyExactRows(rows: LedgerRows, b: Binding, at: int, r: AttemptRow, runState: RunState)
    requires rows.attempts == {r} && rows.authorizations == {NewAuthorization(b, at)}
    requires rows.claimEvents == {NewClaimEvent(b, at)} && rows.unexpectedEvents == {}
    requires ClaimedAttempt(r, b, at) && |rows.acceptanceEvents| <= 1
    requires r.providerTaskId.None? ==> rows.acceptanceEvents == {}
    ensures Classify(rows, b, runState) ==
            if !CostIsStorable(b) then Gate(Conflict)
            else if r.providerTaskId.None? then ClassifyUnowned(r, {}, runState)
            else ClassifyOwned(r, rows.acceptanceEvents, b, runState)
  {
    assert TheOnly(rows.attempts) == r && TheOnly(rows.authorizations) == NewAuthorization(b, at)
           && TheOnly(rows.claimEvents) == NewClaimEvent(b, at);
  }

  /** The answer for a claim whose rows are its own. */
  lemma ClassifyOwnRows(db: Database, b: Binding, at: int, r: AttemptRow, runState: RunState)
    requires Consistent(db) && Durable(db, b, at) && OwnRows(db, b, at)
    requires r in db.attempts && r.id == AttemptIdOf(b)
    ensures |LoadRows(db, b).acceptanceEvents| <= 1
    ensures r.providerTaskId.None? ==> LoadRows(db, b).acceptanceEvents == {}
    ensures Classify(LoadRows(db, b), b, runState) ==
            if !CostIsStorable(b) then Gate(Conflict)
            else if r.providerTaskId.None? then ClassifyUnowned(r, {}, runState)
            else ClassifyOwned(r, LoadRows(db, b).acceptanceEvents, b, runState)
  {
    OwnRowsAreExact(db, b, at, r);
    AcceptanceEventIsUnique(db, b, at);
    if r.providerTaskId.None? { UnownedHasNoAcceptance(db, b, at, r); }
    ClassifyExactRows(LoadRows(db, b), b, at, r, runState);
  }
}
