/** Row selection and the pure classification of the selected rows. */
module LedgerClassify {
  import opened Wrappers
  import opened LedgerTables
  import opened LedgerSchema

  datatype ClaimFailure =
    | NotFound | NotEligible | NotCurrent | LedgerMismatch | SubmissionUnknown
    | Conflict | Corruption | TransactionRejected | CommitResultUnknown

  datatype OwnedTask = OwnedTask(
    runId: string, jobId: string, taskId: string, authorizationSha: string,
    requestFingerprint: string, submittedAt: int)

  datatype Classification =
    | NoExisting
    | Resume(task: OwnedTask)
    | Gate(failure: ClaimFailure)

  datatype LedgerRows = LedgerRows(
    attempts: set<AttemptRow>, authorizations: set<AuthorizationRow>,
    claimEvents: set<EventRow>, acceptanceEvents: set<EventRow>, unexpectedEvents: set<EventRow>)

  // ---------- selection ----------

  predicate SelectsAttempt(b: Binding, r: AttemptRow)
  {
    || (r.runId == b.runId && r.jobId == b.jobId)
    || r.authorizationId == Some(b.authorizationId)
    || r.authorizationSha == Some(b.authorizationSha)
    || r.requestFingerprint == Some(b.requestFingerprint)
  }

  predicate SelectsAuthorization(b: Binding, a: AuthorizationRow)
  {
    || a.authorizationId == b.authorizationId
    || a.authorizationSha == Some(b.authorizationSha)
    || a.planSha == Some(b.planSha)
    || a.nonceSha == Some(b.nonceSha)
    || a.requestFingerprint == b.requestFingerprint
    || (a.runId == b.runId && a.jobId == b.jobId && a.attempt == CANARY_ATTEMPT)
  }

  /** JSONB containment of a one-entry object. */
  predicate Contains(p: Payload, key: PayloadKey, value: string) { key in p && p[key] == Text(value) }

  predicate SelectsEvent(b: Binding, e: EventRow)
  {
    || e.id == ClaimEventId(b)
    || e.id == AcceptanceEventId(b)
    || (e.runId == b.runId && e.eventType.ProviderOrCanary())
    || Contains(e.payload, KAuthorizationId, b.authorizationId)
    || Contains(e.payload, KAuthorizationSha, b.authorizationSha)
    || Contains(e.payload, KFingerprint, b.requestFingerprint)
    || Contains(e.payload, KPlan, b.planSha)
    || Contains(e.payload, KExecution, b.executionSha)
  }

  function SelectAttempts(db: Database, b: Binding): set<AttemptRow>
  {
    set r | r in db.attempts && SelectsAttempt(b, r)
  }

  function SelectAuthorizations(db: Database, b: Binding): set<AuthorizationRow>
  {
    set a | a in db.authorizations && SelectsAuthorization(b, a)
  }

  function SelectEvents(db: Database, b: Binding): set<EventRow>
  {
    set e | e in db.events && SelectsEvent(b, e)
  }

  function GroupRows(attempts: set<AttemptRow>, authorizations: set<AuthorizationRow>, events: set<EventRow>): LedgerRows
  {
    LedgerRows(
      attempts, authorizations,
      set e | e in events && e.eventType == ClaimEvent,
      set e | e in events && e.eventType == AcceptanceEvent,
      set e | e in events && e.eventType.OtherEvent?)
  }

  function LoadRows(db: Database, b: Binding): LedgerRows
  {
    GroupRows(SelectAttempts(db, b), SelectAuthorizations(db, b), SelectEvents(db, b))
  }

  // ---------- row checks ----------

  predicate AttemptMatches(r: AttemptRow, b: Binding)
  {
    && r.id == AttemptIdOf(b) && r.runId == b.runId && r.jobId == b.jobId && r.attempt == CANARY_ATTEMPT
    && r.provider == Some(CANARY_PROVIDER) && r.model == Some(CANARY_MODEL)
    && r.requestFingerprint == Some(b.requestFingerprint)
    && r.authorizationId == Some(b.authorizationId) && r.authorizationSha == Some(b.authorizationSha)
    && r.runtimeReleaseSha == Some(b.runtimeReleaseSha) && r.runtimePolicySha == Some(b.runtimePolicySha)
    && r.taskQueue == Some(b.taskQueue) && r.ledgerId == Some(b.ledgerId) && r.deploymentId == Some(b.deploymentId)
    && r.claimEventId == Some(ClaimEventId(b)) && r.claimState == Some(PostInFlight)
  }

  predicate AuthorizationMatches(a: AuthorizationRow, b: Binding)
  {
    && a.authorizationId == b.authorizationId && a.runId == b.runId && a.jobId == b.jobId
    && a.attempt == CANARY_ATTEMPT && a.requestFingerprint == b.requestFingerprint
    && a.capabilitySha == b.capabilitySha && a.pricingSha == b.pricingSha && a.maxCost == b.maxCost
    && a.documentType == Some(AUTHORIZATION_DOCUMENT) && a.authorizationSha == Some(b.authorizationSha)
    && a.planSha == Some(b.planSha) && a.executionSha == Some(b.executionSha)
    && a.submissionPolicySha == Some(b.submissionPolicySha) && a.runtimePolicySha == Some(b.runtimePolicySha)
    && a.runtimeReleaseSha == Some(b.runtimeReleaseSha) && a.evidenceBundleId == Some(b.evidenceBundleId)
    && a.evidenceTreeSha == Some(b.evidenceTreeSha) && a.evidenceValidUntil == Some(b.evidenceValidUntil)
    && a.entitlementAnchorSha == Some(b.entitlementAnchorSha)
    && a.entitlementValidUntil == Some(b.entitlementValidUntil)
    && a.providerRegion == Some(CANARY_REGION) && a.taskQueue == Some(b.taskQueue)
    && a.ledgerId == Some(b.ledgerId) && a.authorizedAt == Some(b.authorizedAt)
    && a.expiresAt == Some(b.expiresAt) && a.nonceSha == Some(b.nonceSha) && a.claimState == Some(PostInFlight)
  }

  predicate ClaimEventMatches(e: EventRow, a: AuthorizationRow, r: AttemptRow, b: Binding)
  {
    && e.id == ClaimEventId(b) && e.runId == b.runId && e.eventType == ClaimEvent && e.state == Running
    && e.idempotencyKey == ClaimEventKey(b) && e.payload == ClaimPayload(b)
    && e.occurredAt == a.consumedAt && Some(e.occurredAt) == r.claimedAt
  }

  predicate AcceptanceEventMatches(e: EventRow, r: AttemptRow, b: Binding)
  {
    && KProviderState in e.payload
    && e.payload[KProviderState].StateText?
    && var state := e.payload[KProviderState].p;
    && state.Known()
    && r.providerTaskId.Some?
    && (r.attemptState == Some(Submitted) ==> r.providerState == Some(state))
    && e.id == AcceptanceEventId(b) && e.runId == b.runId && e.eventType == AcceptanceEvent
    && e.state == Running && e.idempotencyKey == AcceptanceEventKey(b)
    && e.payload == AcceptancePayload(b, r.providerTaskId.value, state)
    && Some(e.occurredAt) == r.submittedAt
  }

  predicate OwnedStatePairIsValid(r: AttemptRow, runState: RunState)
  {
    && r.providerState.Some? && r.providerState.value.Known()
    && match r.attemptState
       case Some(Submitted) =>
         r.state == Running && runState == Running && r.providerState.value in {Queued, InProgress, Done}
       case Some(Watching) =>
         r.state == Running && runState == Running && r.providerState.value in {Queued, InProgress}
       case Some(Downloading) => r.state == Running && runState == Running && r.providerState == Some(Done)
       case Some(Verified) => r.state == Succeeded && runState == Succeeded && r.providerState == Some(Done)
       case _ => false
  }

  // ---------- classification ----------

  lemma SingletonIsUnique<T>(s: set<T>, x: T, y: T)
    requires |s| == 1 && x in s && y in s
    ensures x == y
  {
    var rest := s - {x};
    assert |rest| == 0;
    assert y !in rest;
  }

  function TheOnly<T(==)>(s: set<T>): (x: T)
    requires |s| == 1
    ensures s == {x}
  {
    assert s != {};
    assert forall x, y | x in s && y in s :: x == y by {
      forall x, y | x in s && y in s ensures x == y { SingletonIsUnique(s, x, y); }
    }
    var x :| x in s;
    x
  }

  function ClassifyUnowned(r: AttemptRow, acceptanceEvents: set<EventRow>, runState: RunState): Classification
  {
    if acceptanceEvents != {} || r.submittedAt.Some? || r.providerState.Some? || r.acceptanceEventId.Some? then
      Gate(Corruption)
    else if !(r.attemptState in {Some(PostInFlight), Some(SubmissionUnknownState), Some(HumanGateState)})
            || !(r.state in {Running, HumanGateRun}) then
      Gate(Corruption)
    else if !(runState in {Running, HumanGateRun}) then
      Gate(Conflict)
    else
      Gate(SubmissionUnknown)
  }

  function ClassifyOwned(r: AttemptRow, acceptanceEvents: set<EventRow>, b: Binding, runState: RunState): Classification
    requires r.providerTaskId.Some? && |acceptanceEvents| <= 1
  {
    if !IsTaskId(r.providerTaskId.value) then Gate(Corruption)
    else if r.submittedAt.None? || acceptanceEvents == {} then Gate(Corruption)
    else if r.acceptanceEventId != Some(AcceptanceEventId(b)) then Gate(Corruption)
    else if !AcceptanceEventMatches(TheOnly(acceptanceEvents), r, b) then Gate(Corruption)
    else if !(r.attemptState in {Some(Submitted), Some(Watching), Some(Downloading), Some(Verified)}) then Gate(NotEligible)
    else if r.providerState.Some? && r.providerState.value.TerminalFailure() then Gate(NotEligible)
    else if !OwnedStatePairIsValid(r, runState) then Gate(Corruption)
    else Resume(OwnedTask(b.runId, b.jobId, r.providerTaskId.value, b.authorizationSha, b.requestFingerprint,
                          r.submittedAt.value))
  }

  function Classify(rows: LedgerRows, b: Binding, runState: RunState): Classification
  {
    if rows == LedgerRows({}, {}, {}, {}, {}) then NoExisting
    else if rows.unexpectedEvents != {} then Gate(Corruption)
    else if |rows.attempts| != 1 || |rows.authorizations| != 1 || |rows.claimEvents| != 1
            || |rows.acceptanceEvents| > 1 then
      Gate(Corruption)
    else
      var r := TheOnly(rows.attempts);
      var a := TheOnly(rows.authorizations);
      var e := TheOnly(rows.claimEvents);
      if !AttemptMatches(r, b) || !AuthorizationMatches(a, b) then Gate(Conflict)
      else if !ClaimEventMatches(e, a, r, b) then Gate(Corruption)
      else if r.providerTaskId.None? then ClassifyUnowned(r, rows.acceptanceEvents, runState)
      else ClassifyOwned(r, rows.acceptanceEvents, b, runState)
  }

  // ---------- the checks around classification ----------

  predicate IdentityMatches(i: Identity, b: Binding)
  {
    && i.singletonId == 1 && i.ledgerId == b.ledgerId && i.deploymentId == b.deploymentId
    && i.runtimeReleaseSha == b.runtimeReleaseSha && i.runtimePolicySha == b.runtimePolicySha
    && i.taskQueue == b.taskQueue && i.provider == CANARY_PROVIDER && i.model == CANARY_MODEL
    && i.region == CANARY_REGION && i.operation == CANARY_OPERATION
    && i.claimToSocketMaxMs == CLAIM_TO_SOCKET_MAX_MS && i.expiryGuardBandMs == EXPIRY_GUARD_BAND_MS
  }

  predicate ClaimTimeIsValid(b: Binding, now: int)
  {
    var guarded := now + EXPIRY_GUARD_BAND_MS * MICROSECONDS_PER_MS;
    && b.authorizedAt <= now
    && guarded < b.expiresAt && guarded < b.evidenceValidUntil && guarded < b.entitlementValidUntil
  }

  /** `classify_evidence_bound_canary`: one read-only snapshot. */
  function ClassifyCanary(db: Database, b: Binding): (c: Classification)
    ensures !c.NoExisting?
  {
    if b.runId !in db.runs then Gate(NotFound)
    else if db.identity.None? then Gate(NotFound)
    else if !IdentityMatches(db.identity.value, b) then Gate(LedgerMismatch)
    else
      var c := Classify(LoadRows(db, b), b, db.runs[b.runId]);
      if c.NoExisting? then Gate(NotFound) else c
  }

  /** `_classify_after_failure` */
  function ClassifyAfterFailure(db: Database, b: Binding, absent: ClaimFailure): Classification
  {
    var c := ClassifyCanary(db, b);
    if c == Gate(NotFound) then Gate(absent) else c
  }

  /** `_classify_owned_after_failure` */
  function ClassifyOwnedAfterFailure(db: Database, b: Binding, taskId: string, absent: ClaimFailure): Classification
  {
    var c := ClassifyCanary(db, b);
    match c
    case Resume(task) => if task.taskId == taskId then c else Gate(Conflict)
    case Gate(failure) =>
      if failure == NotFound then Gate(absent)
      else if absent == Conflict && failure == SubmissionUnknown then Gate(Conflict)
      else c
    case NoExisting => c
  }

  // ---------- extra rows only degrade ----------

  predicate Within(rows: LedgerRows, more: LedgerRows)
  {
    && rows.attempts <= more.attempts && rows.authorizations <= more.authorizations
    && rows.claimEvents <= more.claimEvents && rows.acceptanceEvents <= more.acceptanceEvents
    && rows.unexpectedEvents <= more.unexpectedEvents
  }

  /** One row of each kind a claim writes. */
  predicate HoldsClaim(rows: LedgerRows)
  {
    rows.attempts != {} && rows.authorizations != {} && rows.claimEvents != {}
  }

  predicate SameOrCorrupt(before: Classification, after: Classification) { after == before || after == Gate(Corruption) }

  lemma SupersetOfSingleton<T>(s: set<T>, t: set<T>)
    requires s <= t && s != {} && |t| <= 1
    ensures s == t
  {
    var x :| x in s;
    var rest := t - {x};
    assert |rest| == 0;
    assert t == {x} + rest;
  }

  predicate SingleRows(rows: LedgerRows)
  {
    |rows.attempts| == 1 && |rows.authorizations| == 1 && |rows.claimEvents| == 1 && rows.unexpectedEvents == {}
  }

  /** An attempt whose own columns would let an acceptance event be the last thing missing from its ownership. */
  predicate AwaitsItsEvent(r: AttemptRow, b: Binding, runState: RunState)
  {
    && r.providerTaskId.Some? && IsTaskId(r.providerTaskId.value) && r.submittedAt.Some?
    && r.acceptanceEventId == Some(AcceptanceEventId(b))
    && (r.attemptState == Some(Submitted) ==> r.providerState.Some? && r.providerState.value.Known())
    && ( || !(r.attemptState in {Some(Submitted), Some(Watching), Some(Downloading), Some(Verified)})
         || (r.providerState.Some? && r.providerState.value.TerminalFailure())
         || OwnedStatePairIsValid(r, runState))
  }

  /** The rows match and lack nothing but the acceptance event of an owned task. */
  predicate Upgradable(rows: LedgerRows, b: Binding, runState: RunState)
  {
    && SingleRows(rows) && rows.acceptanceEvents == {}
    && var r, a, e := TheOnly(rows.attempts), TheOnly(rows.authorizations), TheOnly(rows.claimEvents);
       && AttemptMatches(r, b) && AuthorizationMatches(a, b) && ClaimEventMatches(e, a, r, b)
       && AwaitsItsEvent(r, b, runState)
  }

  /** The acceptance event that an attempt's own columns describe. */
  function CompletingEvent(r: AttemptRow, b: Binding): EventRow
    requires r.providerTaskId.Some? && r.submittedAt.Some?
  {
    var state := if r.providerState.Some? && r.providerState.value.Known() then r.providerState.value else Queued;
    NewAcceptanceEvent(b, r.providerTaskId.value, state, r.submittedAt.value)
  }

  /** One acceptance event more changes the answer to something other than CORRUPTION only for such an attempt. */
  lemma OneEventMore(r: AttemptRow, e: EventRow, b: Binding, runState: RunState)
    requires r.providerTaskId.Some? && ClassifyOwned(r, {e}, b, runState) != Gate(Corruption)
    ensures AwaitsItsEvent(r, b, runState)
  {
    assert TheOnly({e}) == e;
  }

  lemma CompletingEventCompletes(r: AttemptRow, b: Binding, runState: RunState)
    requires AwaitsItsEvent(r, b, runState)
    ensures ClassifyOwned(r, {CompletingEvent(r, b)}, b, runState) != Gate(Corruption)
  {
    assert TheOnly({CompletingEvent(r, b)}) == CompletingEvent(r, b);
    assert AcceptanceEventMatches(CompletingEvent(r, b), r, b);
  }

  lemma LargerSetDegrades(rows: LedgerRows, more: LedgerRows, b: Binding, runState: RunState)
    requires Within(rows, more) && HoldsClaim(rows) && !Upgradable(rows, b, runState)
    ensures SameOrCorrupt(Classify(rows, b, runState), Classify(more, b, runState))
  {
    if SingleRows(more) && |more.acceptanceEvents| <= 1 {
      SupersetOfSingleton(rows.attempts, more.attempts);
      SupersetOfSingleton(rows.authorizations, more.authorizations);
      SupersetOfSingleton(rows.claimEvents, more.claimEvents);
      if rows.acceptanceEvents != {} || more.acceptanceEvents == {} {
        if rows.acceptanceEvents != {} { SupersetOfSingleton(rows.acceptanceEvents, more.acceptanceEvents); }
        assert rows == more;
      } else {
        var e :| e in more.acceptanceEvents;
        SupersetOfSingleton({e}, more.acceptanceEvents);
        var r := TheOnly(rows.attempts);
        if r.providerTaskId.Some? && ClassifyOwned(r, {e}, b, runState) != Gate(Corruption) {
          OneEventMore(r, e, b, runState);
        }
      }
    }
  }

  /**
   The classifier by itself, on any complete claim: adding rows gives the same answer or CORRUPTION, exactly
   unless the rows lack nothing but the acceptance event of an owned task.
   */
  lemma DegradationIsExact(rows: LedgerRows, b: Binding, runState: RunState)
    requires HoldsClaim(rows)
    ensures (forall more | Within(rows, more) :: SameOrCorrupt(Classify(rows, b, runState), Classify(more, b, runState)))
            <==> !Upgradable(rows, b, runState)
  {
    if Upgradable(rows, b, runState) {
      var r := TheOnly(rows.attempts);
      var more := rows.(acceptanceEvents := {CompletingEvent(r, b)});
      CompletingEventCompletes(r, b, runState);
      assert Within(rows, more);
      assert Classify(rows, b, runState) == Gate(Corruption) != Classify(more, b, runState);
    } else {
      forall more | Within(rows, more) ensures SameOrCorrupt(Classify(rows, b, runState), Classify(more, b, runState)) {
        LargerSetDegrades(rows, more, b, runState);
      }
    }
  }

  /** The rows of three separate reads: other clients may commit between the first and the last. */
  function ReadRows(db: Database, between: Database, later: Database, b: Binding): LedgerRows
  {
    GroupRows(SelectAttempts(db, b), SelectAuthorizations(between, b), SelectEvents(later, b))
  }

  /**
   No reads of a consistent database yield such rows: the attempt's foreign key brings its event along, events are
   append-only, and the query selects it by id.
   */
  lemma NotUpgradable(db: Database, between: Database, later: Database, b: Binding, runState: RunState)
    requires Consistent(db) && db.events <= later.events
    ensures !Upgradable(ReadRows(db, between, later, b), b, runState)
  {
    var rows := ReadRows(db, between, later, b);
    if Upgradable(rows, b, runState) {
      var r := TheOnly(rows.attempts);
      assert r in rows.attempts && r in db.attempts && ForeignKeysHold(db, r);
      var e :| e in db.events && e.id == AcceptanceEventId(b);
      assert e in SelectEvents(later, b) && e !in rows.acceptanceEvents && e !in rows.unexpectedEvents;
      assert e in rows.claimEvents;
      assert e == TheOnly(rows.claimEvents);
      ClaimAndAcceptanceIdsDiffer(b);
      assert false;
    }
  }

  lemma ClaimAndAcceptanceIdsDiffer(b: Binding)
    ensures ClaimEventId(b) != AcceptanceEventId(b) && ClaimEventKey(b) != AcceptanceEventKey(b)
  {
    assert ClaimEventKey(b)[|ClaimEventKey(b)| - 1] == 'm' && AcceptanceEventKey(b)[|AcceptanceEventKey(b)| - 1] == 'd';
  }

  /**
   Whatever rows are added to a complete claim read from a database, in one snapshot or in three reads, the
   answer stays the same or becomes CORRUPTION: never unclaimed, never a task it did not name before.
   */
  lemma ExtraRowsOnlyDegrade(db: Database, between: Database, later: Database, b: Binding, runState: RunState, more: LedgerRows)
    requires Consistent(db) && db.events <= later.events
    requires HoldsClaim(ReadRows(db, between, later, b)) && Within(ReadRows(db, between, later, b), more)
    ensures !Classify(more, b, runState).NoExisting?
    ensures SameOrCorrupt(Classify(ReadRows(db, between, later, b), b, runState), Classify(more, b, runState))
  {
    NotUpgradable(db, between, later, b, runState);
    LargerSetDegrades(ReadRows(db, between, later, b), more, b, runState);
  }
}
