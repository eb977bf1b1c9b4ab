/** Concrete runs and transactions in which the ledger's answers disagree. */
module LedgerWitnesses {
  import opened Wrappers
  import opened TextFormats
  import opened LedgerTables
  import opened LedgerSchema
  import opened LedgerClassify
  import opened LedgerMachine
  import opened LedgerQuiet
  import opened LedgerOutcomes
  import opened LedgerStore

  // ---------- one reviewed binding and the database prepared for it ----------

  function Filled(c: char): string { seq(64, _ => c) }

  function SampleBinding(maxCost: real): Binding
  {
    Binding(
      authorizationId := "auth1", authorizationSha := Filled('0'), planSha := Filled('1'), executionSha := Filled('2'),
      submissionPolicySha := Filled('3'), runtimePolicySha := Filled('4'), runtimeReleaseSha := Filled('5'),
      evidenceBundleId := Filled('6'), evidenceTreeSha := Filled('7'), evidenceValidUntil := 60_000_000,
      entitlementAnchorSha := Filled('8'), entitlementValidUntil := 60_000_000,
      taskQueue := "queue1", ledgerId := "ledger1", deploymentId := "deploy1", runId := "run", jobId := "job",
      requestFingerprint := Filled('9'), capabilitySha := Filled('a'), pricingSha := Filled('b'),
      worstCaseCost := 1.0, maxCost := maxCost, authorizedAt := 0, expiresAt := 60_000_000, nonceSha := Filled('c'))
  }

  lemma SampleIsConstructed(maxCost: real)
    requires 1.0 <= maxCost <= 15.0
    ensures SampleBinding(maxCost).Constructed() && ClaimTimeIsValid(SampleBinding(maxCost), 0)
  {
    var b := SampleBinding(maxCost);
    assert IsIdentifier(b.authorizationId) && IsIdentifier(b.taskQueue);
    assert IsIdentifier(b.ledgerId) && IsIdentifier(b.deploymentId);
    assert IsRuntimeId(b.runId) && IsRuntimeId(b.jobId);
  }

  function PreparedFor(b: Binding): Database
  {
    Database(
      map[b.runId := Running],
      Some(Identity(1, b.ledgerId, b.deploymentId, b.runtimeReleaseSha, b.runtimePolicySha, b.taskQueue, CANARY_PROVIDER,
                    CANARY_MODEL, CANARY_REGION, CANARY_OPERATION, CLAIM_TO_SOCKET_MAX_MS, EXPIRY_GUARD_BAND_MS)),
      {}, {}, {})
  }

  lemma PreparedAcceptsTheClaim(b: Binding)
    requires b.Constructed() && b.maxCost >= 0.0000005
    ensures var db := PreparedFor(b);
            && Consistent(db) && Unselected(db, b) && Consistent(WriteClaim(db, b, 0))
            && LoadRows(db, b) == LedgerRows({}, {}, {}, {}, {}) && IdentityMatches(db.identity.value, b)
  {
    UnselectedClaimCommits(PreparedFor(b), b, 0);
  }

  // ---------- a cost with seven decimals ----------

  /**
   A well-formed binding whose own claim, committed without an acknowledgement, is answered CONFLICT: its
   maximum cost has a seventh decimal.
   */
  lemma SevenDecimalClaimConflicts()
    ensures var b := SampleBinding(1.0000001);
            && b.Constructed()
            && ClaimTransaction(PreparedFor(b), b, 0, AcknowledgementLost) ==
                 Committed(WriteClaim(PreparedFor(b), b, 0), Answered(Gate(Conflict)))
  {
    var b := SampleBinding(1.0000001);
    SampleIsConstructed(1.0000001);
    PreparedAcceptsTheClaim(b);
    SevenDecimalCostDrifts();
    NewClaimAnswer(PreparedFor(b), b, 0);
  }

  // ---------- paths of the machine ----------

  ghost predicate QuietPath(s: State, run: seq<Action>, end: State)
  {
    Legal(s, run) && QuietRun(s, run) && Exec(s, run) == end
  }

  lemma {:induction false} PathJoin(s: State, run: seq<Action>, middle: State, more: seq<Action>, end: State)
    requires QuietPath(s, run, middle) && QuietPath(middle, more, end)
    ensures QuietPath(s, run + more, end)
    decreases |run|
  {
    if run == [] {
      assert run + more == more;
    } else {
      assert (run + more)[1..] == run[1..] + more;
      PathJoin(Apply(s, run[0]), run[1..], middle, more, end);
    }
  }

  lemma StepPath(s: State, a: Action)
    requires Enabled(s, a) && QuietStep(s, a)
    ensures QuietPath(s, [a], Apply(s, a))
  {
    assert [a][1..] == [];
    assert Legal(Apply(s, a), []) && QuietRun(Apply(s, a), []);
  }

  lemma {:induction false} ProtocolStepsAreQuiet(s: State, run: seq<Action>)
    requires Legal(s, run) && forall a | a in run :: !a.Foreign?
    ensures QuietRun(s, run)
    decreases |run|
  {
    if run != [] { ProtocolStepsAreQuiet(Apply(s, run[0]), run[1..]); }
  }

  lemma ReadsPath(s: State, t: Task, now: int, end: Pc)
    requires s.tasks == [Idle] && t.b.runId in s.db.runs
    requires s.db.identity.Some? && IdentityMatches(s.db.identity.value, t.b)
    requires end == if t.ClaimTask? then AfterClaimReads(t.b, s.db.runs[t.b.runId], now, LoadRows(s.db, t.b))
                    else AfterRecordReads(t.b, t.permit, s.db.runs[t.b.runId], now, LoadRows(s.db, t.b))
    ensures QuietPath(At(s, 0, WaitRun(t)), Reads(0, now, 5), At(s, 0, end))
  {
    FiveReads(s.db, t, now);
    SoloReads(s, 0, WaitRun(t), now, 5);
    ProtocolStepsAreQuiet(At(s, 0, WaitRun(t)), Reads(0, now, 5));
  }

  // ---------- a run up to the commit of the record, with the Run left at a state of choice ----------

  const RECEIPT := Receipt("task-1", Queued)

  /** Any binding whose claim is admitted at time zero and whose cost its column keeps. */
  predicate Claimable(b: Binding)
  {
    b.Constructed() && ClaimTimeIsValid(b, 0) && b.maxCost >= 0.0000005 && CostIsStorable(b)
  }

  lemma SampleIsClaimable()
    ensures Claimable(SampleBinding(1.0))
  {
    SampleIsConstructed(1.0);
    assert (1.0 * 1000000.0 + 0.5).Floor == 1000000;
  }

  function Start(b: Binding): State { State(PreparedFor(b), [Idle], map[], [], []) }

  /** After the claim: one idle task and the permit as given. */
  function Claimed(b: Binding, permit: Permit, runState: RunState): State
  {
    State(WriteClaim(PreparedFor(b), b, 0).(runs := map[b.runId := runState]), [Idle], map[b := 0], [permit], [])
  }

  function FreshPermit(b: Binding): Permit { Permit(b, 0, true, false, None) }

  function UsedPermit(b: Binding): Permit { Permit(b, 0, true, true, Some(RECEIPT)) }

  function Recording(b: Binding, to: RunState): State
  {
    At(Claimed(b, UsedPermit(b), to), 0, WritingOwnership(RecordTask(b, 0), 1, NewAttempt(b, 0)))
  }

  function ClaimSteps(b: Binding): seq<Action>
  {
    [StartClaim(0, b)] + Reads(0, 0, 5) + [CommitClaim(0, true)]
  }

  /** An operator sets the Run state while the POST is in flight. */
  function PostSteps(b: Binding, to: RunState): seq<Action>
  {
    [Consume(0)] + [IssueReceipt(0, RECEIPT)] + [Foreign(Claimed(b, UsedPermit(b), to).db)]
  }

  function RecordSteps(): seq<Action> { [StartRecord(0, 0)] + Reads(0, 1, 5) }

  function RunTo(b: Binding, to: RunState): seq<Action> { ClaimSteps(b) + PostSteps(b, to) + RecordSteps() }

  lemma ClaimPath(b: Binding)
    requires Claimable(b)
    ensures QuietPath(Start(b), ClaimSteps(b), Claimed(b, FreshPermit(b), Running))
  {
    var s, t := Start(b), ClaimTask(b);
    PreparedAcceptsTheClaim(b);
    StepPath(s, StartClaim(0, b));
    ReadsPath(s, t, 0, WritingClaim(t, 0));
    PathJoin(s, [StartClaim(0, b)], At(s, 0, WaitRun(t)), Reads(0, 0, 5), At(s, 0, WritingClaim(t, 0)));
    ClaimCommitPath(b);
    PathJoin(s, [StartClaim(0, b)] + Reads(0, 0, 5), At(s, 0, WritingClaim(t, 0)), [CommitClaim(0, true)],
             Claimed(b, FreshPermit(b), Running));
  }

  lemma ClaimCommitPath(b: Binding)
    requires Consistent(WriteClaim(PreparedFor(b), b, 0))
    ensures QuietPath(At(Start(b), 0, WritingClaim(ClaimTask(b), 0)), [CommitClaim(0, true)], Claimed(b, FreshPermit(b), Running))
  {
    var writing := At(Start(b), 0, WritingClaim(ClaimTask(b), 0));
    StepPath(writing, CommitClaim(0, true));
    assert writing.tasks[0 := Idle] == [Idle] && writing.permits + [FreshPermit(b)] == [FreshPermit(b)];
  }

  lemma MovingTheRunIsQuiet(b: Binding, to: RunState)
    requires Claimable(b) && to in {Running, HumanGateRun}
    ensures var before, after := Claimed(b, UsedPermit(b), Running), Claimed(b, UsedPermit(b), to);
            Enabled(before, Foreign(after.db)) && QuietStep(before, Foreign(after.db))
  {
    PreparedAcceptsTheClaim(b);
    NoMoreThanTheRun(Claimed(b, UsedPermit(b), Running).db, Claimed(b, UsedPermit(b), to).db);
  }

  lemma NoMoreThanTheRun(db: Database, db': Database)
    requires Consistent(db) && db' == db.(runs := db'.runs) && db.runs.Keys <= db'.runs.Keys
    ensures ForeignCommit(db, db') && forall b :: QuietFor(db, db', b)
  {
    forall r | r in db.attempts ensures exists q | q in db'.attempts :: TriggerAllowsUpdate(r, q) {
      assert TriggerAllowsUpdate(r, r);
    }
    forall r | r in db'.attempts ensures ForeignKeysHold(db', r) { MoreRowsKeepForeignKeys(db, db', r); }
    forall b ensures QuietFor(db, db', b) {
      assert SelectAttempts(db', b) == SelectAttempts(db, b);
      forall q | q in SelectAttempts(db', b) ensures exists r | r in SelectAttempts(db, b) :: TriggerAllowsUpdate(r, q) {
        assert TriggerAllowsUpdate(q, q);
      }
    }
  }

  lemma PostPath(b: Binding, to: RunState)
    requires Claimable(b) && to in {Running, HumanGateRun}
    ensures QuietPath(Claimed(b, FreshPermit(b), Running), PostSteps(b, to), Claimed(b, UsedPermit(b), to))
  {
    var claimed, consumed := Claimed(b, FreshPermit(b), Running), Claimed(b, FreshPermit(b).(consumed := true), Running);
    var used, gated := Claimed(b, UsedPermit(b), Running), Claimed(b, UsedPermit(b), to);
    assert IsTaskId(RECEIPT.taskId);
    StepPath(claimed, Consume(0));
    StepPath(consumed, IssueReceipt(0, RECEIPT));
    assert Apply(claimed, Consume(0)) == consumed && Apply(consumed, IssueReceipt(0, RECEIPT)) == used;
    PathJoin(claimed, [Consume(0)], consumed, [IssueReceipt(0, RECEIPT)], used);
    MovingTheRunIsQuiet(b, to);
    StepPath(used, Foreign(gated.db));
    PathJoin(claimed, [Consume(0)] + [IssueReceipt(0, RECEIPT)], used, [Foreign(gated.db)], gated);
  }

  lemma RecordPath(b: Binding, to: RunState)
    requires Claimable(b) && to in {Running, HumanGateRun}
    ensures QuietPath(Claimed(b, UsedPermit(b), to), RecordSteps(), Recording(b, to))
  {
    var s, t := Claimed(b, UsedPermit(b), to), RecordTask(b, 0);
    PreparedAcceptsTheClaim(b);
    ClaimedSelection(PreparedFor(b), s.db, b);
    NewClaimAfterReads(LoadRows(s.db, b), b, to);
    StepPath(s, StartRecord(0, 0));
    assert Apply(s, StartRecord(0, 0)) == At(s, 0, WaitRun(t));
    ReadsPath(s, t, 1, WritingOwnership(t, 1, NewAttempt(b, 0)));
    PathJoin(s, [StartRecord(0, 0)], At(s, 0, WaitRun(t)), Reads(0, 1, 5), Recording(b, to));
  }

  lemma RecordingCanCommit(b: Binding, to: RunState)
    requires Claimable(b) && to in {Running, HumanGateRun}
    ensures CanCommitOwnership(Recording(b, to), 0)
  {
    var db := Claimed(b, UsedPermit(b), to).db;
    PreparedAcceptsTheClaim(b);
    ClaimedSelection(PreparedFor(b), db, b);
    NoMoreThanTheRun(WriteClaim(PreparedFor(b), b, 0), db);
    ClaimedRowsAdmitRecord(db, b);
  }

  lemma ClaimedSelection(db0: Database, db: Database, b: Binding)
    requires Unselected(db0, b) && db == WriteClaim(db0, b, 0).(runs := db.runs)
    ensures LoadRows(db, b) == LedgerRows({NewAttempt(b, 0)}, {NewAuthorization(b, 0)}, {NewClaimEvent(b, 0)}, {}, {})
  {
    assert SelectAttempts(db, b) == SelectAttempts(db0, b) + {NewAttempt(b, 0)};
    assert SelectAuthorizations(db, b) == SelectAuthorizations(db0, b) + {NewAuthorization(b, 0)};
    assert SelectEvents(db, b) == SelectEvents(db0, b) + {NewClaimEvent(b, 0)};
  }

  /** A new claim's rows pass the checks before the record at RUNNING and at HUMAN_GATE. */
  lemma NewClaimAfterReads(rows: LedgerRows, b: Binding, to: RunState)
    requires rows == LedgerRows({NewAttempt(b, 0)}, {NewAuthorization(b, 0)}, {NewClaimEvent(b, 0)}, {}, {})
    requires CostIsStorable(b) && to in {Running, HumanGateRun}
    ensures AfterRecordReads(b, 0, to, 1, rows) == WritingOwnership(RecordTask(b, 0), 1, NewAttempt(b, 0))
  {
    ClassifyExactRows(rows, b, 0, NewAttempt(b, 0), to);
    assert TheOnly(rows.attempts) == NewAttempt(b, 0);
  }

  lemma ClaimedRowsAdmitRecord(db: Database, b: Binding)
    requires Consistent(db) && LoadRows(db, b).acceptanceEvents == {}
    requires db.attempts == {NewAttempt(b, 0)} && db.events == {NewClaimEvent(b, 0)}
    ensures Consistent(WriteOwnership(db, NewAttempt(b, 0), b, RECEIPT, 1))
  {
    ClaimAndAcceptanceIdsDiffer(b);
    UnownedRecordCommits(db, NewAttempt(b, 0), b, RECEIPT, 1);
  }

  lemma RunPath(b: Binding, to: RunState)
    requires Claimable(b) && to in {Running, HumanGateRun}
    ensures QuietPath(Start(b), RunTo(b, to), Recording(b, to))
  {
    ClaimPath(b);
    PostPath(b, to);
    RecordPath(b, to);
    PathJoin(Start(b), ClaimSteps(b), Claimed(b, FreshPermit(b), Running), PostSteps(b, to), Claimed(b, UsedPermit(b), to));
    PathJoin(Start(b), ClaimSteps(b) + PostSteps(b, to), Claimed(b, UsedPermit(b), to), RecordSteps(), Recording(b, to));
  }

  lemma PathsKeepQuietInv(s: State, run: seq<Action>, end: State)
    requires Initial(s) && QuietPath(s, run, end)
    ensures QuietInv(end)
  {
    InitialQuietInv(s);
    QuietRunKeepsInv(s, run);
  }

  lemma StartIsInitial(b: Binding)
    requires Claimable(b)
    ensures Initial(Start(b))
  {
    PreparedAcceptsTheClaim(b);
  }

  lemma RunStartsAndEnds(b: Binding, to: RunState)
    requires Claimable(b) && to in {Running, HumanGateRun}
    ensures Initial(Start(b)) && QuietPath(Start(b), RunTo(b, to), Recording(b, to)) && CanCommitOwnership(Recording(b, to), 0)
  {
    StartIsInitial(b);
    RunPath(b, to);
    RecordingCanCommit(b, to);
  }

  lemma DisagreesAtGate(s: State, b: Binding, row: AttemptRow)
    requires QuietInv(s) && CanCommitOwnership(s, 0) && s.tasks[0] == WritingOwnership(RecordTask(b, 0), 1, row)
    requires s.permits[0].receipt == Some(RECEIPT) && CostIsStorable(b)
    requires b.runId in s.db.runs && s.db.runs[b.runId] == HumanGateRun
    ensures ClassifyCanary(OwnershipCommitted(s, 0, true).db, b) == Gate(Corruption)
  {
    RecordAgreesWithClassification(s, 0, true);
  }

  /**
   For every such binding, a legal quiet run from an empty ledger at whose end the ownership record resumes
   a task that a read-only classification of the same rows calls corrupt: the Run is at HUMAN_GATE.
   */
  lemma HumanGateDisagreement(b: Binding)
    requires Claimable(b)
    ensures var start, run, end := Start(b), RunTo(b, HumanGateRun), Recording(b, HumanGateRun);
            && Initial(start) && QuietPath(start, run, end)
            && CanCommitOwnership(end, 0) && RecordAnswer(b, RECEIPT, 1).Resume?
            && ClassifyCanary(OwnershipCommitted(end, 0, true).db, b) == Gate(Corruption)
  {
    RunStartsAndEnds(b, HumanGateRun);
    PathsKeepQuietInv(Start(b), RunTo(b, HumanGateRun), Recording(b, HumanGateRun));
    DisagreesAtGate(Recording(b, HumanGateRun), b, NewAttempt(b, 0));
  }

  // ---------- a foreign event between the record's reads and its commit ----------

  function OtherRun(b: Binding): string { b.runId + "+" }

  /** An event of another Run that carries the binding's authorization id. */
  function Note(b: Binding): EventRow
  {
    EventRow(OtherId("note"), OtherRun(b), OtherEvent("note"), Running, 1, "note",
             map[KAuthorizationId := Text(b.authorizationId)])
  }

  function WithNote(db: Database, b: Binding): Database
  {
    db.(runs := db.runs[OtherRun(b) := Running], events := db.events + {Note(b)})
  }

  lemma OtherRunIsOther(b: Binding)
    ensures OtherRun(b) != b.runId
  {
    assert |OtherRun(b)| != |b.runId|;
  }

  lemma NoteIsAllowed(db: Database, b: Binding)
    requires Consistent(db) && db.events == {NewClaimEvent(b, 0)}
    ensures ForeignCommit(db, WithNote(db, b))
  {
    var db' := WithNote(db, b);
    OtherRunIsOther(b);
    forall r | r in db.attempts ensures exists q | q in db'.attempts :: TriggerAllowsUpdate(r, q) {
      assert TriggerAllowsUpdate(r, r);
    }
    assert !EventsClash(Note(b), NewClaimEvent(b, 0)) && !EventsClash(NewClaimEvent(b, 0), Note(b));
    forall r | r in db'.attempts ensures ForeignKeysHold(db', r) { MoreRowsKeepForeignKeys(db, db', r); }
  }

  lemma NoteTakesNoName(db: Database, b: Binding)
    requires db.attempts == {NewAttempt(b, 0)} && db.events == {NewClaimEvent(b, 0), Note(b)}
    ensures LoadRows(db, b).acceptanceEvents == {} && !OwnershipTaken(db, b, RECEIPT.taskId)
  {
    ClaimAndAcceptanceIdsDiffer(b);
    OtherRunIsOther(b);
  }

  lemma NotedRecordCommits(db: Database, b: Binding)
    requires Consistent(db) && db.attempts == {NewAttempt(b, 0)} && db.events == {NewClaimEvent(b, 0), Note(b)}
    ensures Consistent(WriteOwnership(db, NewAttempt(b, 0), b, RECEIPT, 1))
  {
    NoteTakesNoName(db, b);
    UnownedRecordCommits(db, NewAttempt(b, 0), b, RECEIPT, 1);
  }

  /** The recording state after the foreign event. */
  function Noted(b: Binding): State
  {
    var s := Recording(b, Running);
    s.(db := WithNote(s.db, b))
  }

  lemma NoteMayBeCommitted(b: Binding)
    requires Claimable(b)
    ensures Enabled(Recording(b, Running), Foreign(Noted(b).db)) && Consistent(Noted(b).db)
  {
    var db := Recording(b, Running).db;
    OtherRunIsOther(b);
    PreparedAcceptsTheClaim(b);
    NoMoreThanTheRun(WriteClaim(PreparedFor(b), b, 0), db);
    NoteIsAllowed(db, b);
  }

  lemma NoteLeavesTheRecordToCommit(b: Binding)
    requires Claimable(b)
    ensures CanCommitOwnership(Noted(b), 0)
  {
    NoteMayBeCommitted(b);
    NotedRecordCommits(Noted(b).db, b);
  }

  lemma UnexpectedIsCorrupt(db: Database, b: Binding)
    requires b.runId in db.runs && db.identity.Some? && IdentityMatches(db.identity.value, b)
    requires LoadRows(db, b).unexpectedEvents != {}
    ensures ClassifyCanary(db, b) == Gate(Corruption)
  {
  }

  lemma NoteIsUnexpected(db: Database, b: Binding)
    requires Note(b) in db.events
    ensures LoadRows(db, b).unexpectedEvents != {}
  {
    assert SelectsEvent(b, Note(b));
    assert Note(b) in LoadRows(db, b).unexpectedEvents;
  }

  /**
   For every such binding, a legal run from an empty ledger that ends the same way with the Run RUNNING: after
   the record's last read another client inserts an event of another Run that the claim's query selects.
   */
  lemma ForeignEventDisagreement(b: Binding)
    requires Claimable(b)
    ensures var start, run, end := Start(b), RunTo(b, Running) + [Foreign(Noted(b).db)], Noted(b);
            && Initial(start) && Legal(start, run) && Exec(start, run) == end
            && CanCommitOwnership(end, 0) && end.db.runs[b.runId] == Running
            && RecordAnswer(b, RECEIPT, 1).Resume?
            && ClassifyCanary(OwnershipCommitted(end, 0, true).db, b) == Gate(Corruption)
  {
    NotedRun(b);
    OtherRunIsOther(b);
    PreparedAcceptsTheClaim(b);
    var db' := OwnershipCommitted(Noted(b), 0, true).db;
    NoteIsUnexpected(db', b);
    UnexpectedIsCorrupt(db', b);
  }

  lemma NotedRun(b: Binding)
    requires Claimable(b)
    ensures var start, run := Start(b), RunTo(b, Running) + [Foreign(Noted(b).db)];
            && Initial(start) && Legal(start, run) && Exec(start, run) == Noted(b) && CanCommitOwnership(Noted(b), 0)
  {
    RunStartsAndEnds(b, Running);
    NoteMayBeCommitted(b);
    NoteLeavesTheRecordToCommit(b);
    ExecAppend(Start(b), RunTo(b, Running), Foreign(Noted(b).db));
  }
}
