/** The database rules of migrations 0001-0008 that the ledger rests on. */
module LedgerSchema {
  import opened Wrappers
  import opened TextFormats
  import opened LedgerTables

  // ---------- CHECK constraints ----------

  predicate NoEvidenceColumns(r: AttemptRow)
  {
    && r.authorizationId.None? && r.authorizationSha.None? && r.runtimeReleaseSha.None?
    && r.runtimePolicySha.None? && r.taskQueue.None? && r.ledgerId.None? && r.deploymentId.None?
    && r.claimEventId.None? && r.acceptanceEventId.None? && r.claimedAt.None? && r.claimState.None?
  }

  /** `ck_attempt_evidence_bound_claim_complete` */
  predicate AttemptCheck(r: AttemptRow)
  {
    || (NoEvidenceColumns(r) && r.attemptState != Some(PostInFlight))
    || (&& r.authorizationId.Some? && r.authorizationSha.Some? && r.runtimeReleaseSha.Some?
        && r.runtimePolicySha.Some? && r.taskQueue.Some? && r.ledgerId.Some? && r.deploymentId.Some?
        && r.claimEventId.Some? && r.claimedAt.Some? && r.claimState == Some(PostInFlight)
        && r.attempt == 1 && r.provider == Some(CANARY_PROVIDER) && r.model == Some(CANARY_MODEL)
        && r.requestFingerprint.Some? && IsSha256(r.requestFingerprint.value)
        && r.attemptState.Some?
        && ( || (&& r.providerTaskId.None? && r.submittedAt.None? && r.acceptanceEventId.None?
                 && r.attemptState.value in {PostInFlight, SubmissionUnknownState, HumanGateState})
             || (&& r.providerTaskId.Some? && r.submittedAt.Some? && r.acceptanceEventId.Some?
                 && r.attemptState.value in {Submitted, Watching, Downloading, Verified, FailedAttempt,
                                             SubmissionUnknownState, HumanGateState})))
  }

  /** `ck_live_auth_evidence_bound_complete` */
  predicate AuthorizationCheck(a: AuthorizationRow)
  {
    || (&& a.documentType.None? && a.authorizationSha.None? && a.planSha.None? && a.executionSha.None?
        && a.submissionPolicySha.None? && a.runtimePolicySha.None? && a.runtimeReleaseSha.None?
        && a.evidenceBundleId.None? && a.evidenceTreeSha.None? && a.evidenceValidUntil.None?
        && a.entitlementAnchorSha.None? && a.entitlementValidUntil.None? && a.providerRegion.None?
        && a.taskQueue.None? && a.ledgerId.None? && a.authorizedAt.None? && a.expiresAt.None?
        && a.nonceSha.None? && a.claimState.None?)
    || (&& a.documentType == Some(AUTHORIZATION_DOCUMENT) && a.authorizationSha.Some? && a.planSha.Some?
        && a.executionSha.Some? && a.submissionPolicySha.Some? && a.runtimePolicySha.Some?
        && a.runtimeReleaseSha.Some? && a.evidenceBundleId.Some? && a.evidenceTreeSha.Some?
        && a.evidenceValidUntil.Some? && a.entitlementAnchorSha.Some? && a.entitlementValidUntil.Some?
        && a.providerRegion == Some(CANARY_REGION) && a.taskQueue.Some? && a.ledgerId.Some?
        && a.authorizedAt.Some? && a.expiresAt.Some? && a.nonceSha.Some? && a.claimState == Some(PostInFlight)
        && a.attempt == 1 && 0.0 < a.maxCost <= 15.0
        && a.authorizedAt.value < a.expiresAt.value && a.expiresAt.value <= a.evidenceValidUntil.value
        && a.expiresAt.value <= a.entitlementValidUntil.value)
  }

  // ---------- triggers ----------

  /** The rows `sdc_protect_evidence_bound_attempt` guards. */
  predicate Protected(r: AttemptRow)
  {
    !NoEvidenceColumns(r) || r.attemptState == Some(PostInFlight)
  }

  predicate KeptOnceSet<T(==)>(before: Option<T>, after: Option<T>) { before.Some? ==> after == before }

  predicate SameIdentityColumns(before: AttemptRow, after: AttemptRow)
  {
    && after.id == before.id && after.runId == before.runId && after.jobId == before.jobId
    && after.attempt == before.attempt && after.provider == before.provider && after.model == before.model
    && after.requestFingerprint == before.requestFingerprint
    && after.authorizationId == before.authorizationId && after.authorizationSha == before.authorizationSha
    && after.runtimeReleaseSha == before.runtimeReleaseSha && after.runtimePolicySha == before.runtimePolicySha
    && after.taskQueue == before.taskQueue && after.ledgerId == before.ledgerId
    && after.deploymentId == before.deploymentId && after.claimEventId == before.claimEventId
    && after.claimedAt == before.claimedAt && after.claimState == before.claimState
    && KeptOnceSet(before.acceptanceEventId, after.acceptanceEventId)
    && KeptOnceSet(before.providerTaskId, after.providerTaskId)
    && KeptOnceSet(before.submittedAt, after.submittedAt)
  }

  predicate TriggerAllowsUpdate(before: AttemptRow, after: AttemptRow)
  {
    Protected(before) || Protected(after) ==> SameIdentityColumns(before, after)
  }

  // ---------- keys ----------

  predicate BothSetAndEqual<T(==)>(x: Option<T>, y: Option<T>) { x.Some? && x == y }

  predicate AttemptsClash(r: AttemptRow, q: AttemptRow)
  {
    || r.id == q.id
    || (r.runId == q.runId && r.jobId == q.jobId && r.attempt == q.attempt)
    || (BothSetAndEqual(r.provider, q.provider) && BothSetAndEqual(r.providerTaskId, q.providerTaskId))
    || BothSetAndEqual(r.authorizationId, q.authorizationId)
    || BothSetAndEqual(r.authorizationSha, q.authorizationSha)
  }

  predicate AuthorizationsClash(a: AuthorizationRow, c: AuthorizationRow)
  {
    || a.authorizationId == c.authorizationId
    || a.requestFingerprint == c.requestFingerprint
    || BothSetAndEqual(a.authorizationSha, c.authorizationSha)
    || BothSetAndEqual(a.planSha, c.planSha)
    || BothSetAndEqual(a.nonceSha, c.nonceSha)
    || (&& a.documentType == Some(AUTHORIZATION_DOCUMENT) == c.documentType
        && a.runId == c.runId && a.jobId == c.jobId && a.attempt == c.attempt)
  }

  predicate EventsClash(e: EventRow, f: EventRow)
  {
    e.id == f.id || (e.runId == f.runId && e.idempotencyKey == f.idempotencyKey)
  }

  /** Every constraint the database enforces at commit. */
  predicate Consistent(db: Database)
  {
    && (forall r | r in db.attempts :: AttemptCheck(r) && r.runId in db.runs)
    && (forall a | a in db.authorizations :: AuthorizationCheck(a) && a.runId in db.runs)
    && (forall e | e in db.events :: e.runId in db.runs)
    && (forall r, q {:trigger AttemptsClash(r, q)} | r in db.attempts && q in db.attempts :: AttemptsClash(r, q) ==> r == q)
    && (forall a, c {:trigger AuthorizationsClash(a, c)} | a in db.authorizations && c in db.authorizations :: AuthorizationsClash(a, c) ==> a == c)
    && (forall e, f {:trigger EventsClash(e, f)} | e in db.events && f in db.events :: EventsClash(e, f) ==> e == f)
    && (forall r | r in db.attempts :: ForeignKeysHold(db, r))
  }

  predicate ForeignKeysHold(db: Database, r: AttemptRow)
  {
    && (r.authorizationId.Some? ==>
          exists a | a in db.authorizations :: a.authorizationId == r.authorizationId.value)
    && (r.claimEventId.Some? ==> exists e | e in db.events :: e.id == r.claimEventId.value)
    && (r.acceptanceEventId.Some? ==> exists e | e in db.events :: e.id == r.acceptanceEventId.value)
  }

  /**
   What the triggers let a commit do to the rows that are there: run events, authorization uses and
   the identity row are append-only, and a guarded Attempt survives with its identity columns.
   */
  predicate TriggersAllow(db: Database, db': Database)
  {
    && db.events <= db'.events
    && db.authorizations <= db'.authorizations
    && (db.identity.Some? ==> db'.identity == db.identity)
    && (forall r | r in db.attempts :: Protected(r) ==>
          exists r' | r' in db'.attempts :: TriggerAllowsUpdate(r, r'))
  }

  /** Anything another client of the database can commit. */
  predicate ForeignCommit(db: Database, db': Database)
  {
    TriggersAllow(db, db') && Consistent(db')
  }
}
