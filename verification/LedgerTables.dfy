/**
 The durable rows of the Canary ledger, the reviewed binding, and the rows a claim and an ownership
 record write. Times are UTC microseconds; a column that may be NULL is an Option.

 A digest is modelled symbolically: `stable_id` is a datatype constructor applied to the value it
 hashes, so two ids are equal exactly when they hash the same value.
 */
module LedgerTables {
  import opened Wrappers
  import opened TextFormats

  const CANARY_PROVIDER := "volcengine_ark"
  const CANARY_MODEL := "doubao-seedance-2-0-260128"
  const CANARY_REGION := "cn-beijing"
  const CANARY_OPERATION := "contents.generations.tasks.create"
  const AUTHORIZATION_DOCUMENT := "sdc.evidence-bound-live-authorization"
  const CANARY_ATTEMPT := 1
  const MICROSECONDS_PER_MS := 1000
  const CLAIM_TO_SOCKET_MAX_MS := 10_000
  const EXPIRY_GUARD_BAND_MS := 30_000

  // ---------- text and number formats ----------

  predicate IsTaskId(s: string)
  {
    && 1 <= |s| <= 256 && IsAlphaNumeric(s[0])
    && forall i | 1 <= i < |s| :: IsAlphaNumeric(s[i]) || s[i] in "._:-"
  }

  predicate IsRuntimeId(s: string)
  {
    1 <= |s| <= 256 && forall i | 0 <= i < |s| :: s[i] >= ' '
  }

  /** What a column of type NUMERIC(18, 6) holds after being given `x`: ties go away from zero. */
  function Numeric6(x: real): real
  {
    if x >= 0.0 then (x * 1000000.0 + 0.5).Floor as real / 1000000.0
    else -((-x * 1000000.0 + 0.5).Floor as real / 1000000.0)
  }

  // ---------- column values ----------

  datatype StableId =
    | EventId(runId: string, key: string)
    | AttemptId(runId: string, jobId: string, attempt: int)
    | OtherId(text: string)

  /** `Other...` constructors stand for the texts that the named constructors do not spell. */
  datatype RunState =
    | Pending | Running | Succeeded | FailedRun | Retrying | Stop2 | HumanGateRun
    | OtherRunState(text: string)

  datatype AttemptState =
    | PostInFlight | SubmissionUnknownState | HumanGateState
    | Submitted | Watching | Downloading | Verified | FailedAttempt
    | OtherAttemptState(text: string)

  datatype ProviderState =
    | Queued | InProgress | Done | FailedTask | Cancelled | Expired
    | OtherProviderState(text: string)
  {
    predicate Known() { !OtherProviderState? }
    predicate TerminalFailure() { FailedTask? || Cancelled? || Expired? }
  }

  datatype EventType = ClaimEvent | AcceptanceEvent | OtherEvent(text: string)
  {
    /** `event_type LIKE 'provider.%' OR event_type LIKE 'canary.%'` */
    predicate ProviderOrCanary()
    {
      match this
      case ClaimEvent => true
      case AcceptanceEvent => true
      case OtherEvent(t) => "provider." <= t || "canary." <= t
    }
  }

  datatype PayloadKey =
    | KAttempt | KAuthorizationId | KAuthorizationSha | KDeployment | KEntitlement | KBundle | KTree
    | KExecution | KJob | KLedger | KPlan | KFingerprint | KPolicy | KRelease | KSubmission | KQueue
    | KProviderState | KProviderTask
    | KOther(text: string)

  datatype JsonValue = Text(s: string) | Number(n: int) | StateText(p: ProviderState) | OtherJson(t: string)

  type Payload = map<PayloadKey, JsonValue>

  // ---------- the binding ----------

  datatype Binding = Binding(
    authorizationId: string, authorizationSha: string, planSha: string, executionSha: string,
    submissionPolicySha: string, runtimePolicySha: string, runtimeReleaseSha: string,
    evidenceBundleId: string, evidenceTreeSha: string, evidenceValidUntil: int,
    entitlementAnchorSha: string, entitlementValidUntil: int,
    taskQueue: string, ledgerId: string, deploymentId: string,
    runId: string, jobId: string, requestFingerprint: string,
    capabilitySha: string, pricingSha: string, worstCaseCost: real, maxCost: real,
    authorizedAt: int, expiresAt: int, nonceSha: string)
  {
    /** What construction of a binding checks. */
    predicate Constructed()
    {
      && IsSha256(authorizationSha) && IsSha256(planSha) && IsSha256(executionSha)
      && IsSha256(submissionPolicySha) && IsSha256(runtimePolicySha) && IsSha256(runtimeReleaseSha)
      && IsSha256(evidenceBundleId) && IsSha256(evidenceTreeSha) && IsSha256(entitlementAnchorSha)
      && IsSha256(requestFingerprint) && IsSha256(capabilitySha) && IsSha256(pricingSha) && IsSha256(nonceSha)
      && IsIdentifier(authorizationId) && IsIdentifier(taskQueue) && IsIdentifier(ledgerId) && IsIdentifier(deploymentId)
      && IsRuntimeId(runId) && IsRuntimeId(jobId)
      && authorizedAt < expiresAt && expiresAt <= evidenceValidUntil && expiresAt <= entitlementValidUntil
      && worstCaseCost > 0.0 && worstCaseCost <= maxCost <= 15.0
    }
  }

  function ClaimEventKey(b: Binding): string { b.jobId + ":1:evidence-bound-claim" }
  function ClaimEventId(b: Binding): StableId { EventId(b.runId, ClaimEventKey(b)) }
  function AcceptanceEventKey(b: Binding): string { b.jobId + ":1:evidence-bound-submitted" }
  function AcceptanceEventId(b: Binding): StableId { EventId(b.runId, AcceptanceEventKey(b)) }
  function AttemptIdOf(b: Binding): StableId { AttemptId(b.runId, b.jobId, CANARY_ATTEMPT) }

  // ---------- rows ----------

  datatype AttemptRow = AttemptRow(
    id: StableId, runId: string, jobId: string, attempt: int, state: RunState,
    provider: Option<string>, model: Option<string>, requestFingerprint: Option<string>,
    providerTaskId: Option<string>, providerState: Option<ProviderState>,
    attemptState: Option<AttemptState>, submittedAt: Option<int>,
    authorizationId: Option<string>, authorizationSha: Option<string>,
    runtimeReleaseSha: Option<string>, runtimePolicySha: Option<string>,
    taskQueue: Option<string>, ledgerId: Option<string>, deploymentId: Option<string>,
    claimEventId: Option<StableId>, acceptanceEventId: Option<StableId>,
    claimedAt: Option<int>, claimState: Option<AttemptState>)

  datatype AuthorizationRow = AuthorizationRow(
    authorizationId: string, runId: string, jobId: string, attempt: int,
    requestFingerprint: string, capabilitySha: string, pricingSha: string,
    maxCost: real, consumedAt: int,
    documentType: Option<string>, authorizationSha: Option<string>, planSha: Option<string>,
    executionSha: Option<string>, submissionPolicySha: Option<string>, runtimePolicySha: Option<string>,
    runtimeReleaseSha: Option<string>, evidenceBundleId: Option<string>, evidenceTreeSha: Option<string>,
    evidenceValidUntil: Option<int>, entitlementAnchorSha: Option<string>, entitlementValidUntil: Option<int>,
    providerRegion: Option<string>, taskQueue: Option<string>, ledgerId: Option<string>,
    authorizedAt: Option<int>, expiresAt: Option<int>, nonceSha: Option<string>,
    claimState: Option<AttemptState>)

  datatype EventRow = EventRow(
    id: StableId, runId: string, eventType: EventType, state: RunState, occurredAt: int,
    idempotencyKey: string, payload: Payload)

  datatype Identity = Identity(
    singletonId: int, ledgerId: string, deploymentId: string, runtimeReleaseSha: string,
    runtimePolicySha: string, taskQueue: string, provider: string, model: string, region: string,
    operation: string, claimToSocketMaxMs: int, expiryGuardBandMs: int)

  datatype Database = Database(
    runs: map<string, RunState>, identity: Option<Identity>,
    attempts: set<AttemptRow>, authorizations: set<AuthorizationRow>, events: set<EventRow>)

  // ---------- rows written by the ledger ----------

  function ClaimPayload(b: Binding): Payload
  {
    map[
      KAttempt := Number(CANARY_ATTEMPT),
      KAuthorizationId := Text(b.authorizationId),
      KAuthorizationSha := Text(b.authorizationSha),
      KDeployment := Text(b.deploymentId),
      KEntitlement := Text(b.entitlementAnchorSha),
      KBundle := Text(b.evidenceBundleId),
      KTree := Text(b.evidenceTreeSha),
      KExecution := Text(b.executionSha),
      KJob := Text(b.jobId),
      KLedger := Text(b.ledgerId),
      KPlan := Text(b.planSha),
      KFingerprint := Text(b.requestFingerprint),
      KPolicy := Text(b.runtimePolicySha),
      KRelease := Text(b.runtimeReleaseSha),
      KSubmission := Text(b.submissionPolicySha),
      KQueue := Text(b.taskQueue)]
  }

  function AcceptancePayload(b: Binding, taskId: string, state: ProviderState): Payload
  {
    map[
      KAttempt := Number(CANARY_ATTEMPT),
      KAuthorizationSha := Text(b.authorizationSha),
      KJob := Text(b.jobId),
      KProviderState := StateText(state),
      KProviderTask := Text(taskId),
      KFingerprint := Text(b.requestFingerprint)]
  }

  function NewAttempt(b: Binding, now: int): AttemptRow
  {
    AttemptRow(
      id := AttemptIdOf(b), runId := b.runId, jobId := b.jobId, attempt := CANARY_ATTEMPT, state := Running,
      provider := Some(CANARY_PROVIDER), model := Some(CANARY_MODEL), requestFingerprint := Some(b.requestFingerprint),
      providerTaskId := None, providerState := None, attemptState := Some(PostInFlight), submittedAt := None,
      authorizationId := Some(b.authorizationId), authorizationSha := Some(b.authorizationSha),
      runtimeReleaseSha := Some(b.runtimeReleaseSha), runtimePolicySha := Some(b.runtimePolicySha),
      taskQueue := Some(b.taskQueue), ledgerId := Some(b.ledgerId), deploymentId := Some(b.deploymentId),
      claimEventId := Some(ClaimEventId(b)), acceptanceEventId := None,
      claimedAt := Some(now), claimState := Some(PostInFlight))
  }

  function NewAuthorization(b: Binding, now: int): AuthorizationRow
  {
    AuthorizationRow(
      authorizationId := b.authorizationId, runId := b.runId, jobId := b.jobId, attempt := CANARY_ATTEMPT,
      requestFingerprint := b.requestFingerprint, capabilitySha := b.capabilitySha, pricingSha := b.pricingSha,
      maxCost := Numeric6(b.maxCost), consumedAt := now,
      documentType := Some(AUTHORIZATION_DOCUMENT), authorizationSha := Some(b.authorizationSha),
      planSha := Some(b.planSha), executionSha := Some(b.executionSha),
      submissionPolicySha := Some(b.submissionPolicySha), runtimePolicySha := Some(b.runtimePolicySha),
      runtimeReleaseSha := Some(b.runtimeReleaseSha), evidenceBundleId := Some(b.evidenceBundleId),
      evidenceTreeSha := Some(b.evidenceTreeSha), evidenceValidUntil := Some(b.evidenceValidUntil),
      entitlementAnchorSha := Some(b.entitlementAnchorSha), entitlementValidUntil := Some(b.entitlementValidUntil),
      providerRegion := Some(CANARY_REGION), taskQueue := Some(b.taskQueue), ledgerId := Some(b.ledgerId),
      authorizedAt := Some(b.authorizedAt), expiresAt := Some(b.expiresAt), nonceSha := Some(b.nonceSha),
      claimState := Some(PostInFlight))
  }

  function NewClaimEvent(b: Binding, now: int): EventRow
  {
    EventRow(ClaimEventId(b), b.runId, ClaimEvent, Running, now, ClaimEventKey(b), ClaimPayload(b))
  }

  function NewAcceptanceEvent(b: Binding, taskId: string, state: ProviderState, now: int): EventRow
  {
    EventRow(AcceptanceEventId(b), b.runId, AcceptanceEvent, Running, now, AcceptanceEventKey(b),
             AcceptancePayload(b, taskId, state))
  }

  /** The row after the ownership UPDATE. */
  function OwnedAttempt(r: AttemptRow, b: Binding, taskId: string, state: ProviderState, now: int): AttemptRow
  {
    r.(providerTaskId := Some(taskId), providerState := Some(state), attemptState := Some(Submitted),
       submittedAt := Some(now), acceptanceEventId := Some(AcceptanceEventId(b)))
  }
}
