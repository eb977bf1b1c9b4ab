/** What the ledger answers: after a claim, after a lost acknowledgement, and after an ownership record. */
module LedgerOutcomes {
  import opened Wrappers
  import opened LedgerTables
  import opened LedgerSchema
  import opened LedgerClassify
  import opened LedgerMachine
  import opened LedgerSafety
  import opened LedgerTheorems
  import opened LedgerQuiet

  lemma InitialQuietInv(s: State)
    requires Initial(s)
    ensures QuietInv(s)
  {
    InitialInv(s);
  }

  // ---------- a claim without ownership ----------

  lemma UnownedRowAnswer(db: Database, b: Binding, at: int, r: AttemptRow)
    requires Consistent(db) && Durable(db, b, at) && OwnRows(db, b, at)
    requires r in db.attempts && r.id == AttemptIdOf(b) && r.providerTaskId.None?
    ensures b.runId in db.runs && ClassifyCanary(db, b).Gate?
    ensures ClassifyCanary(db, b) == Gate(SubmissionUnknown)
            <==> CostIsStorable(b) && r.providerState.None?
                 && r.state in {Running, HumanGateRun} && db.runs[b.runId] in {Running, HumanGateRun}
  {
    assert NewClaimEvent(b, at) in db.events;
    OwnRowsAreExact(db, b, at, r);
    ClassifyOwnRows(db, b, at, r, db.runs[b.runId]);
    assert AttemptCheck(r);
  }

  /**
   In a quiet run a committed claim that owns no task classifies as SUBMISSION_UNKNOWN exactly while the
   Attempt and Run states stay RUNNING or HUMAN_GATE and no provider state has been written, provided
   the reviewed cost survives its column; it never resumes a task.
   */
  lemma ClaimWithoutOwnership(s0: State, run: seq<Action>, b: Binding, r: AttemptRow)
    requires Initial(s0) && Legal(s0, run) && QuietRun(s0, run)
    requires b in Exec(s0, run).claims && r in Exec(s0, run).db.attempts
    requires r.id == AttemptIdOf(b) && r.providerTaskId.None?
    ensures var db := Exec(s0, run).db;
            && b.runId in db.runs && ClassifyCanary(db, b).Gate?
            && (ClassifyCanary(db, b) == Gate(SubmissionUnknown)
                <==> CostIsStorable(b) && r.providerState.None?
                     && r.state in {Running, HumanGateRun} && db.runs[b.runId] in {Running, HumanGateRun})
  {
    InitialQuietInv(s0);
    QuietRunKeepsInv(s0, run);
    var s := Exec(s0, run);
    UnownedRowAnswer(s.db, b, s.claims[b], r);
  }

  /** The queries of `b` find the three rows its claim wrote, the Attempt as it is now, and nothing else. */
  predicate SelectsOnly(db: Database, b: Binding, r: AttemptRow, at: int)
  {
    LoadRows(db, b) == LedgerRows({r}, {NewAuthorization(b, at)}, {NewClaimEvent(b, at)}, {}, {})
  }

  /**
   The same for every run, whatever other clients commit: a claim that owns no task is gated, and the gate
   is SUBMISSION_UNKNOWN exactly when in addition no foreign row is selected.
   */
  lemma UnownedClaimInAnyRun(s0: State, run: seq<Action>, b: Binding, r: AttemptRow)
    requires Initial(s0) && Legal(s0, run)
    requires b in Exec(s0, run).claims && r in Exec(s0, run).db.attempts
    requires r.id == AttemptIdOf(b) && r.providerTaskId.None?
    ensures var s := Exec(s0, run);
            && b.runId in s.db.runs && ClassifyCanary(s.db, b).Gate?
            && (ClassifyCanary(s.db, b) == Gate(SubmissionUnknown)
                <==> SelectsOnly(s.db, b, r, s.claims[b]) && CostIsStorable(b) && r.providerState.None?
                     && r.state in {Running, HumanGateRun} && s.db.runs[b.runId] in {Running, HumanGateRun})
  {
    InitialInv(s0);
    RunKeepsInv(s0, run);
    var s := Exec(s0, run);
    UnownedDurableAnswer(s.db, b, s.claims[b], r);
  }

  lemma UnownedDurableAnswer(db: Database, b: Binding, at: int, r: AttemptRow)
    requires Consistent(db) && Durable(db, b, at)
    requires r in db.attempts && r.id == AttemptIdOf(b) && r.providerTaskId.None?
    ensures b.runId in db.runs && ClassifyCanary(db, b).Gate?
    ensures ClassifyCanary(db, b) == Gate(SubmissionUnknown)
            <==> SelectsOnly(db, b, r, at) && CostIsStorable(b) && r.providerState.None?
                 && r.state in {Running, HumanGateRun} && db.runs[b.runId] in {Running, HumanGateRun}
  {
    assert NewClaimEvent(b, at) in db.events;
    DurableRowsAreSelected(db, b, at, r);
    assert AttemptCheck(r);
    UnownedRowsAnswer(LoadRows(db, b), b, at, r, db.runs[b.runId]);
  }

  lemma DurableRowsAreSelected(db: Database, b: Binding, at: int, r: AttemptRow)
    requires Consistent(db) && Durable(db, b, at) && r in db.attempts && r.id == AttemptIdOf(b)
    ensures ClaimedAttempt(r, b, at)
    ensures var rows := LoadRows(db, b);
            r in rows.attempts && NewAuthorization(b, at) in rows.authorizations && NewClaimEvent(b, at) in rows.claimEvents
  {
    var q :| q in db.attempts && ClaimedAttempt(q, b, at);
    assert AttemptsClash(q, r);
  }

  lemma UnownedRowsAnswer(rows: LedgerRows, b: Binding, at: int, r: AttemptRow, runState: RunState)
    requires r in rows.attempts && NewAuthorization(b, at) in rows.authorizations && NewClaimEvent(b, at) in rows.claimEvents
    requires ClaimedAttempt(r, b, at) && r.providerTaskId.None? && AttemptCheck(r)
    ensures Classify(rows, b, runState).Gate?
    ensures Classify(rows, b, runState) == Gate(SubmissionUnknown)
            <==> && rows == LedgerRows({r}, {NewAuthorization(b, at)}, {NewClaimEvent(b, at)}, {}, {})
                 && CostIsStorable(b) && r.providerState.None?
                 && r.state in {Running, HumanGateRun} && runState in {Running, HumanGateRun}
  {
    if rows.unexpectedEvents == {} && |rows.attempts| == 1 && |rows.authorizations| == 1 && |rows.claimEvents| == 1 {
      SupersetOfSingleton({r}, rows.attempts);
      SupersetOfSingleton({NewAuthorization(b, at)}, rows.authorizations);
      SupersetOfSingleton({NewClaimEvent(b, at)}, rows.claimEvents);
      if rows.acceptanceEvents == {} { ClassifyExactRows(rows, b, at, r, runState); }
    }
  }

  // ---------- a lost acknowledgement ----------

  /**
   Whether or not the commit was acknowledged, re-classifying the committed claim answers
   SUBMISSION_UNKNOWN, or CONFLICT when the column rounded the reviewed cost; never a permit.
   */
  lemma CommittedClaimAnswer(s: State, p: nat, acknowledged: bool)
    requires QuietInv(s) && CanCommitClaim(s, p)
    ensures ClassifyAfterFailure(ClaimCommitted(s, p, acknowledged).db, s.tasks[p].task.b, CommitResultUnknown)
            == if CostIsStorable(s.tasks[p].task.b) then Gate(SubmissionUnknown) else Gate(Conflict)
  {
    var b, now := s.tasks[p].task.b, s.tasks[p].now;
    assert PcInv(s, s.tasks[p]) && QuietPc(s.db, s.tasks[p]);
    NewClaimAnswer(s.db, b, now);
  }

  /**
   The same whatever other clients inserted since the claim's reads: the committed claim is gated, as
   SUBMISSION_UNKNOWN exactly when its queries find only the new rows and the column kept the reviewed cost.
   */
  lemma CommittedClaimInAnyRun(s: State, p: nat, acknowledged: bool)
    requires Inv(s) && CanCommitClaim(s, p)
    ensures var b, now := s.tasks[p].task.b, s.tasks[p].now;
            var db' := ClaimCommitted(s, p, acknowledged).db;
            var answer := ClassifyAfterFailure(db', b, CommitResultUnknown);
            && answer.Gate?
            && (answer == Gate(SubmissionUnknown) <==> SelectsOnly(db', b, NewAttempt(b, now), now) && CostIsStorable(b))
  {
    var b, now := s.tasks[p].task.b, s.tasks[p].now;
    var db' := WriteClaim(s.db, b, now);
    assert PcInv(s, s.tasks[p]);
    NewClaimIsDurable(s.db, b, now);
    assert NewAttempt(b, now) in db'.attempts;
    UnownedDurableAnswer(db', b, now, NewAttempt(b, now));
    ClaimedAnswer(db', b, now, Running);
  }

  lemma NewClaimAnswer(db: Database, b: Binding, now: int)
    requires Unselected(db, b) && Consistent(WriteClaim(db, b, now))
    requires db.identity.Some? && IdentityMatches(db.identity.value, b)
    requires b.runId in db.runs && db.runs[b.runId] == Running
    ensures ClassifyCanary(WriteClaim(db, b, now), b)
            == if CostIsStorable(b) then Gate(SubmissionUnknown) else Gate(Conflict)
  {
    var db' := WriteClaim(db, b, now);
    NewClaimIsDurable(db, b, now);
    NewClaimOwnsItsRows(db, b, now);
    assert NewAttempt(b, now) in db'.attempts;
    ClassifyOwnRows(db', b, now, NewAttempt(b, now), Running);
  }

  // ---------- the ownership record ----------

  /** What a committing ownership record returns. */
  function RecordAnswer(b: Binding, receipt: Receipt, now: int): Classification
  {
    if receipt.state.TerminalFailure() then Gate(NotEligible)
    else Resume(OwnedTask(b.runId, b.jobId, receipt.taskId, b.authorizationSha, b.requestFingerprint, now))
  }

  lemma OwnedRowAnswer(db: Database, row: AttemptRow, b: Binding, receipt: Receipt, now: int, at: int)
    requires var db' := WriteOwnership(db, row, b, receipt, now);
             Consistent(db') && Durable(db', b, at) && OwnRows(db', b, at)
    requires row.id == AttemptIdOf(b) && row.state == Running && row.runId == b.runId && b.runId in db.runs
    requires CostIsStorable(b) && IsTaskId(receipt.taskId) && receipt.state.Known()
    ensures ClassifyCanary(WriteOwnership(db, row, b, receipt, now), b)
            == if receipt.state.TerminalFailure() || db.runs[b.runId] == Running then RecordAnswer(b, receipt, now)
               else Gate(Corruption)
  {
    var db' := WriteOwnership(db, row, b, receipt, now);
    var owned := OwnedAttempt(row, b, receipt.taskId, receipt.state, now);
    var event := NewAcceptanceEvent(b, receipt.taskId, receipt.state, now);
    assert owned in db'.attempts && event in db'.events;
    ClassifyOwnRows(db', b, at, owned, db'.runs[b.runId]);
    OnlyAcceptanceEvent(db', b, event);
    OwnedClassification(row, b, receipt, now, db'.runs[b.runId]);
  }

  lemma OnlyAcceptanceEvent(db: Database, b: Binding, event: EventRow)
    requires |LoadRows(db, b).acceptanceEvents| <= 1
    requires event in db.events && event.id == AcceptanceEventId(b) && event.eventType == AcceptanceEvent
    ensures LoadRows(db, b).acceptanceEvents == {event}
  {
    assert event in SelectEvents(db, b);
    assert event in LoadRows(db, b).acceptanceEvents;
    SupersetOfSingleton({event}, LoadRows(db, b).acceptanceEvents);
  }

  lemma OwnedClassification(row: AttemptRow, b: Binding, receipt: Receipt, now: int, runState: RunState)
    requires row.id == AttemptIdOf(b) && row.state == Running && row.runId == b.runId
    requires IsTaskId(receipt.taskId) && receipt.state.Known()
    ensures ClassifyOwned(OwnedAttempt(row, b, receipt.taskId, receipt.state, now),
                          {NewAcceptanceEvent(b, receipt.taskId, receipt.state, now)}, b, runState)
            == if receipt.state.TerminalFailure() || runState == Running then RecordAnswer(b, receipt, now)
               else Gate(Corruption)
  {
    var event := NewAcceptanceEvent(b, receipt.taskId, receipt.state, now);
    assert TheOnly({event}) == event;
    assert AcceptanceEventMatches(event, OwnedAttempt(row, b, receipt.taskId, receipt.state, now), b);
  }

  /** The queries of `b` find what its claim and its record wrote, and nothing else. */
  predicate RecordedOnly(db: Database, b: Binding, row: AttemptRow, receipt: Receipt, now: int, at: int)
  {
    LoadRows(db, b) == LedgerRows(
      {OwnedAttempt(row, b, receipt.taskId, receipt.state, now)}, {NewAuthorization(b, at)}, {NewClaimEvent(b, at)},
      {NewAcceptanceEvent(b, receipt.taskId, receipt.state, now)}, {})
  }

  /** The classification of rows that hold a whole recorded claim, and perhaps more. */
  lemma RecordedRowsAnswer(rows: LedgerRows, row: AttemptRow, b: Binding, receipt: Receipt, now: int, at: int, runState: RunState)
    requires var owned := OwnedAttempt(row, b, receipt.taskId, receipt.state, now);
             && owned in rows.attempts && ClaimedAttempt(owned, b, at) && row.state == Running
             && NewAuthorization(b, at) in rows.authorizations && NewClaimEvent(b, at) in rows.claimEvents
             && NewAcceptanceEvent(b, receipt.taskId, receipt.state, now) in rows.acceptanceEvents
    requires IsTaskId(receipt.taskId) && receipt.state.Known()
    ensures Classify(rows, b, runState) ==
            if rows != LedgerRows({OwnedAttempt(row, b, receipt.taskId, receipt.state, now)}, {NewAuthorization(b, at)},
                                  {NewClaimEvent(b, at)}, {NewAcceptanceEvent(b, receipt.taskId, receipt.state, now)}, {})
            then Gate(Corruption)
            else if !CostIsStorable(b) then Gate(Conflict)
            else if runState == Running || receipt.state.TerminalFailure() then RecordAnswer(b, receipt, now)
            else Gate(Corruption)
  {
    var owned := OwnedAttempt(row, b, receipt.taskId, receipt.state, now);
    var event := NewAcceptanceEvent(b, receipt.taskId, receipt.state, now);
    if rows.unexpectedEvents == {} && |rows.attempts| == 1 && |rows.authorizations| == 1 && |rows.claimEvents| == 1
       && |rows.acceptanceEvents| == 1 {
      SupersetOfSingleton({owned}, rows.attempts);
      SupersetOfSingleton({NewAuthorization(b, at)}, rows.authorizations);
      SupersetOfSingleton({NewClaimEvent(b, at)}, rows.claimEvents);
      SupersetOfSingleton({event}, rows.acceptanceEvents);
      ClassifyExactRows(rows, b, at, owned, runState);
      OwnedClassification(row, b, receipt, now, runState);
    }
  }

  lemma RecordedDatabaseAnswer(db: Database, row: AttemptRow, b: Binding, receipt: Receipt, now: int, at: int)
    requires b.runId in db.runs && Durable(db, b, at) && row.state == Running
    requires var owned := OwnedAttempt(row, b, receipt.taskId, receipt.state, now);
             && owned in LoadRows(db, b).attempts && ClaimedAttempt(owned, b, at)
             && NewAuthorization(b, at) in LoadRows(db, b).authorizations && NewClaimEvent(b, at) in LoadRows(db, b).claimEvents
             && NewAcceptanceEvent(b, receipt.taskId, receipt.state, now) in LoadRows(db, b).acceptanceEvents
    requires IsTaskId(receipt.taskId) && receipt.state.Known()
    ensures ClassifyCanary(db, b) ==
            if !RecordedOnly(db, b, row, receipt, now, at) then Gate(Corruption)
            else if !CostIsStorable(b) then Gate(Conflict)
            else if db.runs[b.runId] == Running || receipt.state.TerminalFailure() then RecordAnswer(b, receipt, now)
            else Gate(Corruption)
  {
    RecordedRowsAnswer(LoadRows(db, b), row, b, receipt, now, at, db.runs[b.runId]);
  }

  /** What the record wrote is found by the claim's own queries. */
  lemma RecordedRowsAreSelected(s: State, p: nat)
    requires Inv(s) && CanCommitOwnership(s, p)
    ensures var WritingOwnership(t, now, row) := s.tasks[p];
            var receipt := s.permits[t.permit].receipt.value;
            var db' := WriteOwnership(s.db, row, t.b, receipt, now);
            var owned := OwnedAttempt(row, t.b, receipt.taskId, receipt.state, now);
            && t.b in s.claims && Durable(db', t.b, s.claims[t.b]) && ClaimedAttempt(owned, t.b, s.claims[t.b])
            && owned in LoadRows(db', t.b).attempts
            && NewAuthorization(t.b, s.claims[t.b]) in LoadRows(db', t.b).authorizations
            && NewClaimEvent(t.b, s.claims[t.b]) in LoadRows(db', t.b).claimEvents
            && NewAcceptanceEvent(t.b, receipt.taskId, receipt.state, now) in LoadRows(db', t.b).acceptanceEvents
  {
    var WritingOwnership(t, now, row) := s.tasks[p];
    assert PcInv(s, s.tasks[p]);
    var receipt := s.permits[t.permit].receipt.value;
    var db' := WriteOwnership(s.db, row, t.b, receipt, now);
    var owned := OwnedAttempt(row, t.b, receipt.taskId, receipt.state, now);
    assert t.b in s.claims;
    WriteOwnershipKeepsHistory(s, row, t.permit, now);
    assert owned in db'.attempts;
    DurableRowsAreSelected(db', t.b, s.claims[t.b], owned);
    assert NewAcceptanceEvent(t.b, receipt.taskId, receipt.state, now) in SelectEvents(db', t.b);
  }

  /**
   The record's answer and the classification of the rows it committed, in every state: they agree exactly
   when the claim's queries find only its own rows, the column kept the reviewed cost, and the Run is RUNNING
   or the provider reported a terminal failure. `record_owned_task` does not look for rows that appeared after
   its reads, and accepts a claim whose Run is at HUMAN_GATE.
   */
  lemma RecordAgreesInAnyRun(s: State, p: nat, acknowledged: bool)
    requires Inv(s) && CanCommitOwnership(s, p)
    ensures var WritingOwnership(t, now, row) := s.tasks[p];
            var receipt := s.permits[t.permit].receipt.value;
            var db' := OwnershipCommitted(s, p, acknowledged).db;
            && t.b in s.claims && t.b.runId in db'.runs
            && (ClassifyCanary(db', t.b) == RecordAnswer(t.b, receipt, now)
                <==> && RecordedOnly(db', t.b, row, receipt, now, s.claims[t.b]) && CostIsStorable(t.b)
                     && (db'.runs[t.b.runId] == Running || receipt.state.TerminalFailure()))
            && (ClassifyCanary(db', t.b) != RecordAnswer(t.b, receipt, now) ==>
                  ClassifyCanary(db', t.b) ==
                    if RecordedOnly(db', t.b, row, receipt, now, s.claims[t.b]) && !CostIsStorable(t.b)
                    then Gate(Conflict) else Gate(Corruption))
  {
    var WritingOwnership(t, now, row) := s.tasks[p];
    assert PcInv(s, s.tasks[p]);
    var receipt := s.permits[t.permit].receipt.value;
    RecordedRowsAreSelected(s, p);
    RecordedDatabaseAnswer(WriteOwnership(s.db, row, t.b, receipt, now), row, t.b, receipt, now, s.claims[t.b]);
  }

  /** In a quiet state no other row is in the way. */
  lemma QuietRecordIsAlone(s: State, p: nat)
    requires QuietInv(s) && CanCommitOwnership(s, p)
    ensures var WritingOwnership(t, now, row) := s.tasks[p];
            var receipt := s.permits[t.permit].receipt.value;
            t.b in s.claims
            && RecordedOnly(WriteOwnership(s.db, row, t.b, receipt, now), t.b, row, receipt, now, s.claims[t.b])
  {
    var WritingOwnership(t, now, row) := s.tasks[p];
    assert PcInv(s, s.tasks[p]);
    var receipt := s.permits[t.permit].receipt.value;
    var db' := WriteOwnership(s.db, row, t.b, receipt, now);
    RecordedRowsAreSelected(s, p);
    NewOwnershipOwnsItsRows(s.db, row, t.b, receipt, now, s.claims[t.b]);
    OwnRowsAreExact(db', t.b, s.claims[t.b], OwnedAttempt(row, t.b, receipt.taskId, receipt.state, now));
    AcceptanceEventIsUnique(db', t.b, s.claims[t.b]);
    OnlyAcceptanceEvent(db', t.b, NewAcceptanceEvent(t.b, receipt.taskId, receipt.state, now));
  }

  /** So in a quiet state the Run and the provider state alone decide. */
  lemma RecordAgreesWithClassification(s: State, p: nat, acknowledged: bool)
    requires QuietInv(s) && CanCommitOwnership(s, p) && CostIsStorable(s.tasks[p].task.b)
    ensures var WritingOwnership(t, now, _) := s.tasks[p];
            var receipt := s.permits[t.permit].receipt.value;
            var db' := OwnershipCommitted(s, p, acknowledged).db;
            && t.b.runId in db'.runs
            && (ClassifyCanary(db', t.b) == RecordAnswer(t.b, receipt, now)
                <==> db'.runs[t.b.runId] == Running || receipt.state.TerminalFailure())
            && (ClassifyCanary(db', t.b) != RecordAnswer(t.b, receipt, now) ==>
                  ClassifyCanary(db', t.b) == Gate(Corruption))
  {
    QuietRecordIsAlone(s, p);
    RecordAgreesInAnyRun(s, p, acknowledged);
  }

  /** Once a claim owns a task, no later ownership record reaches its write, whatever receipt it carries. */
  lemma OwnedClaimIsNotWrittenAgain(s: State, b: Binding, taskId: string, at: int, p: nat)
    requires Inv(s) && HasTask(s.db, b, taskId, at) && CanCommitOwnership(s, p)
    ensures s.tasks[p].task.b != b
  {
    assert PcInv(s, s.tasks[p]);
    var row := s.tasks[p].row;
    var r :| r in s.db.attempts && r.id == AttemptIdOf(b) && r.providerTaskId == Some(taskId);
    if s.tasks[p].task.b == b {
      assert AttemptsClash(r, row);
      assert false;
    }
  }

  // ---------- the schema accepts what the ledger writes ----------

  lemma FloorOf(x: real, n: int)
    requires n as real <= x < n as real + 1.0
    ensures x.Floor == n
  {
  }

  /** Exactly the costs of whole millionths survive the column. */
  lemma StorableCosts(x: real)
    requires x >= 0.0
    ensures Numeric6(x) == x <==> (x * 1000000.0).Floor as real == x * 1000000.0
  {
    var n := (x * 1000000.0).Floor;
    if n as real == x * 1000000.0 {
      FloorOf(x * 1000000.0 + 0.5, n);
    } else if Numeric6(x) == x {
      assert x * 1000000.0 == (x * 1000000.0 + 0.5).Floor as real;
      FloorOf(x * 1000000.0, (x * 1000000.0 + 0.5).Floor);
    }
  }

  /** A cost with a seventh decimal is stored as another number. */
  lemma SevenDecimalCostDrifts()
    ensures Numeric6(1.0000001) == 1.0
  {
    FloorOf(1.0000001 * 1000000.0 + 0.5, 1000000);
  }

  lemma StoredCostRange(x: real)
    requires 0.0 < x <= 15.0
    ensures 0.0 < Numeric6(x) <==> x >= 0.0000005
    ensures Numeric6(x) <= 15.0
  {
    var n := (x * 1000000.0 + 0.5).Floor;
    assert n <= 15000000;
  }

  /** Both CHECK constraints hold of every claim, except that a cost under half a millionth rounds to zero. */
  lemma ClaimRowsPassChecks(b: Binding, now: int)
    requires b.Constructed()
    ensures AttemptCheck(NewAttempt(b, now))
    ensures AuthorizationCheck(NewAuthorization(b, now)) <==> b.maxCost >= 0.0000005
  {
    StoredCostRange(b.maxCost);
  }

  lemma OwnershipPassesCheckAndTrigger(row: AttemptRow, b: Binding, receipt: Receipt, now: int)
    requires AttemptCheck(row) && AttemptMatches(row, b) && PreOwnership(row)
    ensures AttemptCheck(OwnedAttempt(row, b, receipt.taskId, receipt.state, now))
    ensures TriggerAllowsUpdate(row, OwnedAttempt(row, b, receipt.taskId, receipt.state, now))
  {
  }

  /** An admitted claim leaves more than 20 s after the socket bound before each of the three deadlines. */
  lemma AdmittedClaimHasTimeLeft(b: Binding, now: int)
    requires ClaimTimeIsValid(b, now)
    ensures var socket := now + CLAIM_TO_SOCKET_MAX_MS * MICROSECONDS_PER_MS;
            var margin := 20_000 * MICROSECONDS_PER_MS;
            && socket + margin < b.expiresAt && socket + margin < b.evidenceValidUntil
            && socket + margin < b.entitlementValidUntil && b.authorizedAt <= now
  {
  }

  /** Rows that carry the claim's names under other columns: the only clashes its queries cannot see. */
  predicate NameTaken(db: Database, b: Binding)
  {
    || (exists r | r in db.attempts :: r.id == AttemptIdOf(b))
    || (exists e | e in db.events :: e.runId == b.runId && e.idempotencyKey == ClaimEventKey(b))
  }

  /** When nothing is selected, the three inserts satisfy every constraint iff the cost is not rounded to zero and the names are free. */
  lemma UnselectedClaimCommits(db: Database, b: Binding, now: int)
    requires Consistent(db) && Unselected(db, b) && b.Constructed() && b.runId in db.runs
    ensures Consistent(WriteClaim(db, b, now)) <==> b.maxCost >= 0.0000005 && !NameTaken(db, b)
  {
    ClaimRowsPassChecks(b, now);
    if b.maxCost >= 0.0000005 && !NameTaken(db, b) {
      FreshClaimIsConsistent(db, b, now);
    } else if NameTaken(db, b) {
      TakenNameClashes(db, b, now);
    } else {
      assert NewAuthorization(b, now) in WriteClaim(db, b, now).authorizations;
    }
  }

  lemma TakenNameClashes(db: Database, b: Binding, now: int)
    requires Unselected(db, b) && NameTaken(db, b)
    ensures !Consistent(WriteClaim(db, b, now))
  {
    var db' := WriteClaim(db, b, now);
    if r :| r in db.attempts && r.id == AttemptIdOf(b) {
      assert r !in SelectAttempts(db, b);
      assert r in db'.attempts && NewAttempt(b, now) in db'.attempts && AttemptsClash(r, NewAttempt(b, now));
    } else {
      var e :| e in db.events && e.runId == b.runId && e.idempotencyKey == ClaimEventKey(b);
      assert e !in SelectEvents(db, b);
      assert e in db'.events && NewClaimEvent(b, now) in db'.events && EventsClash(e, NewClaimEvent(b, now));
    }
  }

  lemma FreshClaimIsConsistent(db: Database, b: Binding, now: int)
    requires Consistent(db) && Unselected(db, b) && b.Constructed() && b.runId in db.runs
    requires b.maxCost >= 0.0000005 && !NameTaken(db, b)
    ensures Consistent(WriteClaim(db, b, now))
  {
    var db' := WriteClaim(db, b, now);
    ClaimRowsPassChecks(b, now);
    FreshClaimClashesWithNothing(db, b, now);
    assert NewAuthorization(b, now) in db'.authorizations && NewClaimEvent(b, now) in db'.events;
    forall r | r in db'.attempts ensures ForeignKeysHold(db', r) {
      if r in db.attempts { MoreRowsKeepForeignKeys(db, db', r); }
    }
  }

  lemma MoreRowsKeepForeignKeys(db: Database, db': Database, r: AttemptRow)
    requires ForeignKeysHold(db, r) && db.authorizations <= db'.authorizations && db.events <= db'.events
    ensures ForeignKeysHold(db', r)
  {
  }

  lemma FreshClaimClashesWithNothing(db: Database, b: Binding, now: int)
    requires Unselected(db, b) && !NameTaken(db, b)
    ensures forall r | r in db.attempts :: !AttemptsClash(r, NewAttempt(b, now)) && !AttemptsClash(NewAttempt(b, now), r)
    ensures forall a | a in db.authorizations ::
              !AuthorizationsClash(a, NewAuthorization(b, now)) && !AuthorizationsClash(NewAuthorization(b, now), a)
    ensures forall e | e in db.events :: !EventsClash(e, NewClaimEvent(b, now)) && !EventsClash(NewClaimEvent(b, now), e)
  {
    forall r | r in db.attempts
      ensures !AttemptsClash(r, NewAttempt(b, now)) && !AttemptsClash(NewAttempt(b, now), r)
    {
      assert r !in SelectAttempts(db, b);
    }
    forall a | a in db.authorizations
      ensures !AuthorizationsClash(a, NewAuthorization(b, now)) && !AuthorizationsClash(NewAuthorization(b, now), a)
    {
      assert a !in SelectAuthorizations(db, b);
    }
    forall e | e in db.events
      ensures !EventsClash(e, NewClaimEvent(b, now)) && !EventsClash(NewClaimEvent(b, now), e)
    {
      assert e !in SelectEvents(db, b);
    }
  }

  // ---------- when an ownership record commits ----------

  /** Rows that the record's checks do not look for and its write would clash with. */
  predicate OwnershipTaken(db: Database, b: Binding, taskId: string)
  {
    || (exists r | r in db.attempts :: r.provider == Some(CANARY_PROVIDER) && r.providerTaskId == Some(taskId))
    || (exists e | e in db.events ::
          e.id == AcceptanceEventId(b) || (e.runId == b.runId && e.idempotencyKey == AcceptanceEventKey(b)))
  }

  /** After the checks before it, the ownership write meets every constraint iff the task id and the event's names are free. */
  lemma UnownedRecordCommits(db: Database, row: AttemptRow, b: Binding, receipt: Receipt, now: int)
    requires Consistent(db) && row in db.attempts && AttemptMatches(row, b) && PreOwnership(row)
    requires LoadRows(db, b).acceptanceEvents == {}
    ensures Consistent(WriteOwnership(db, row, b, receipt, now)) <==> !OwnershipTaken(db, b, receipt.taskId)
  {
    assert AttemptCheck(row);
    if OwnershipTaken(db, b, receipt.taskId) {
      TakenOwnershipClashes(db, row, b, receipt, now);
    } else {
      FreeOwnershipIsConsistent(db, row, b, receipt, now);
    }
  }

  lemma UnselectedEventIsNew(db: Database, b: Binding, event: EventRow)
    requires LoadRows(db, b).acceptanceEvents == {} && event.id == AcceptanceEventId(b) && event.eventType == AcceptanceEvent
    ensures event !in db.events
  {
    assert event in db.events ==> event in SelectEvents(db, b);
    assert event in SelectEvents(db, b) ==> event in LoadRows(db, b).acceptanceEvents;
  }

  lemma TakenOwnershipClashes(db: Database, row: AttemptRow, b: Binding, receipt: Receipt, now: int)
    requires Consistent(db) && row in db.attempts && AttemptMatches(row, b) && PreOwnership(row)
    requires LoadRows(db, b).acceptanceEvents == {} && OwnershipTaken(db, b, receipt.taskId)
    ensures !Consistent(WriteOwnership(db, row, b, receipt, now))
  {
    var db' := WriteOwnership(db, row, b, receipt, now);
    var owned := OwnedAttempt(row, b, receipt.taskId, receipt.state, now);
    var event := NewAcceptanceEvent(b, receipt.taskId, receipt.state, now);
    if r :| r in db.attempts && r.provider == Some(CANARY_PROVIDER) && r.providerTaskId == Some(receipt.taskId) {
      assert r in db'.attempts && owned in db'.attempts && AttemptsClash(r, owned);
      assert r != owned by { assert r.id == row.id ==> AttemptsClash(r, row); }
    } else {
      var e :| e in db.events
               && (e.id == AcceptanceEventId(b) || (e.runId == b.runId && e.idempotencyKey == AcceptanceEventKey(b)));
      UnselectedEventIsNew(db, b, event);
      assert e in db'.events && event in db'.events && EventsClash(e, event);
    }
  }

  lemma OwnedClashesAsBefore(db: Database, row: AttemptRow, b: Binding, receipt: Receipt, now: int, r: AttemptRow)
    requires Consistent(db) && row in db.attempts && AttemptMatches(row, b) && PreOwnership(row)
    requires !OwnershipTaken(db, b, receipt.taskId) && r in db.attempts && r != row
    ensures var owned := OwnedAttempt(row, b, receipt.taskId, receipt.state, now);
            !AttemptsClash(r, owned) && !AttemptsClash(owned, r)
  {
    assert !AttemptsClash(r, row);
    assert !(r.provider == Some(CANARY_PROVIDER) && r.providerTaskId == Some(receipt.taskId));
  }

  lemma NewEventClashesWithNothing(db: Database, b: Binding, receipt: Receipt, now: int, e: EventRow)
    requires !OwnershipTaken(db, b, receipt.taskId) && e in db.events
    ensures var event := NewAcceptanceEvent(b, receipt.taskId, receipt.state, now);
            !EventsClash(e, event) && !EventsClash(event, e)
  {
  }

  lemma FreeOwnershipIsConsistent(db: Database, row: AttemptRow, b: Binding, receipt: Receipt, now: int)
    requires Consistent(db) && row in db.attempts && AttemptMatches(row, b) && PreOwnership(row)
    requires !OwnershipTaken(db, b, receipt.taskId)
    ensures Consistent(WriteOwnership(db, row, b, receipt, now))
  {
    var db' := WriteOwnership(db, row, b, receipt, now);
    var owned := OwnedAttempt(row, b, receipt.taskId, receipt.state, now);
    var event := NewAcceptanceEvent(b, receipt.taskId, receipt.state, now);
    assert AttemptCheck(row) && ForeignKeysHold(db, row);
    OwnershipPassesCheckAndTrigger(row, b, receipt, now);
    forall r | r in db.attempts && r != row ensures !AttemptsClash(r, owned) && !AttemptsClash(owned, r) {
      OwnedClashesAsBefore(db, row, b, receipt, now, r);
    }
    forall e | e in db.events ensures !EventsClash(e, event) && !EventsClash(event, e) {
      NewEventClashesWithNothing(db, b, receipt, now, e);
    }
    assert event in db'.events;
    forall r | r in db'.attempts ensures ForeignKeysHold(db', r) {
      if r != owned { MoreRowsKeepForeignKeys(db, db', r); }
    }
  }
}
