/** The inductive invariant of the interleaved protocol, and what follows for every run. */
module LedgerSafety {
  import opened Wrappers
  import opened LedgerTables
  import opened LedgerSchema
  import opened LedgerClassify
  import opened LedgerMachine

  // ---------- what a committed claim leaves behind ----------

  /** Two bindings that share none of the values a claim is keyed by. */
  predicate KeysDisjoint(b: Binding, c: Binding)
  {
    && b.runId != c.runId && b.authorizationId != c.authorizationId
    && b.authorizationSha != c.authorizationSha && b.planSha != c.planSha
    && b.executionSha != c.executionSha && b.nonceSha != c.nonceSha
    && b.requestFingerprint != c.requestFingerprint
  }

  /** The claim's Attempt, whatever its provider and run states have become. */
  predicate ClaimedAttempt(r: AttemptRow, b: Binding, at: int)
  {
    AttemptMatches(r, b) && r.claimedAt == Some(at)
  }

  predicate Durable(db: Database, b: Binding, at: int)
  {
    && NewAuthorization(b, at) in db.authorizations
    && NewClaimEvent(b, at) in db.events
    && (exists r | r in db.attempts :: ClaimedAttempt(r, b, at))
    && db.identity.Some? && IdentityMatches(db.identity.value, b)
  }

  predicate OwnsTask(r: AttemptRow, b: Binding, taskId: string, at: int)
  {
    && r.id == AttemptIdOf(b) && Protected(r)
    && r.providerTaskId == Some(taskId) && r.submittedAt == Some(at)
    && r.acceptanceEventId == Some(AcceptanceEventId(b))
  }

  predicate DurableOwnership(db: Database, b: Binding, receipt: Receipt, at: int)
  {
    && NewAcceptanceEvent(b, receipt.taskId, receipt.state, at) in db.events
    && (exists r | r in db.attempts :: OwnsTask(r, b, receipt.taskId, at))
  }

  // ---------- the invariant ----------

  ghost predicate ClaimsDurable(db: Database, claims: map<Binding, int>)
  {
    forall b | b in claims :: Durable(db, b, claims[b])
  }

  ghost predicate ClaimsDisjoint(claims: map<Binding, int>)
  {
    forall b, c | b in claims && c in claims && b != c :: KeysDisjoint(b, c)
  }

  ghost predicate LocksExclusive(tasks: seq<Pc>)
  {
    && (forall p, q | 0 <= p < |tasks| && 0 <= q < |tasks| && p != q ::
          !(HoldsIdentity(tasks[p]) && HoldsIdentity(tasks[q])))
    && (forall p, q | 0 <= p < |tasks| && 0 <= q < |tasks| && p != q ::
          HoldsRun(tasks[p]) && HoldsRun(tasks[q]) ==> tasks[p].task.b.runId != tasks[q].task.b.runId)
  }

  ghost predicate PermitIsIssued(permits: seq<Permit>, t: Task)
  {
    t.RecordTask? ==> t.permit < |permits| && permits[t.permit].binding == t.b && permits[t.permit].receipt.Some?
  }

  ghost predicate NonceUnused(claims: map<Binding, int>, nonce: string)
  {
    forall c | c in claims :: c.nonceSha != nonce
  }

  /** What each program point knows. */
  ghost predicate PcInv(s: State, pc: Pc)
  {
    && (!pc.Idle? ==> PermitIsIssued(s.permits, pc.task))
    && (HoldsRun(pc) ==> pc.task.b.runId in s.db.runs)
    && (KnowsRunState(pc) ==> s.db.runs[pc.task.b.runId] == pc.runState)
    && (HoldsIdentity(pc) ==> s.db.identity.Some? && IdentityMatches(s.db.identity.value, pc.task.b))
    && (pc.LoadEvents? && pc.task.ClaimTask? && pc.authorizations == {} ==>
          NonceUnused(s.claims, pc.task.b.nonceSha))
    && (pc.WritingClaim? ==>
          && pc.task.ClaimTask?
          && s.db.runs[pc.task.b.runId] == Running
          && ClaimTimeIsValid(pc.task.b, pc.now)
          && forall c | c in s.claims :: KeysDisjoint(pc.task.b, c))
    && ((pc.LoadAuthorizations? || pc.LoadEvents?) && pc.task.RecordTask? ==> pc.attempts <= s.db.attempts)
    && (pc.WritingOwnership? ==>
          && pc.task.RecordTask?
          && pc.row in s.db.attempts && AttemptMatches(pc.row, pc.task.b) && PreOwnership(pc.row))
  }

  ghost predicate PermitsInv(claims: map<Binding, int>, permits: seq<Permit>)
  {
    && (forall i | 0 <= i < |permits| ::
          && permits[i].binding in claims && claims[permits[i].binding] == permits[i].claimedAt
          && (permits[i].receipt.Some? ==>
                && permits[i].consumed && IsTaskId(permits[i].receipt.value.taskId)
                && permits[i].receipt.value.state.Known()))
    && (forall i, j | 0 <= i < j < |permits| :: permits[i].binding != permits[j].binding)
  }

  ghost predicate AcceptedInv(db: Database, permits: seq<Permit>, accepted: seq<Acceptance>)
  {
    && (forall i | 0 <= i < |accepted| ::
          && accepted[i].permit < |permits|
          && permits[accepted[i].permit].receipt.Some?
          && DurableOwnership(db, permits[accepted[i].permit].binding, permits[accepted[i].permit].receipt.value,
                              accepted[i].at))
    && (forall i, j | 0 <= i < j < |accepted| :: accepted[i].permit != accepted[j].permit)
  }

  ghost predicate Inv(s: State)
  {
    && Consistent(s.db)
    && ClaimsDurable(s.db, s.claims)
    && ClaimsDisjoint(s.claims)
    && LocksExclusive(s.tasks)
    && (forall p | 0 <= p < |s.tasks| :: PcInv(s, s.tasks[p]))
    && PermitsInv(s.claims, s.permits)
    && AcceptedInv(s.db, s.permits, s.accepted)
  }

  // ---------- a claim that reads no rows shares no key with any earlier claim ----------

  lemma EventSelectionCoversKeys(db: Database, b: Binding, c: Binding, at: int)
    requires Durable(db, c, at) && SelectEvents(db, b) == {}
    ensures b.runId != c.runId && b.authorizationId != c.authorizationId
            && b.authorizationSha != c.authorizationSha && b.planSha != c.planSha
            && b.executionSha != c.executionSha && b.requestFingerprint != c.requestFingerprint
  {
    var e := NewClaimEvent(c, at);
    assert e !in SelectEvents(db, b);
    assert !SelectsEvent(b, e);
  }

  lemma AuthorizationSelectionCoversNonce(db: Database, b: Binding, claims: map<Binding, int>)
    requires ClaimsDurable(db, claims) && SelectAuthorizations(db, b) == {}
    ensures NonceUnused(claims, b.nonceSha)
  {
    forall c | c in claims ensures c.nonceSha != b.nonceSha {
      assert Durable(db, c, claims[c]);
      assert NewAuthorization(c, claims[c]) !in SelectAuthorizations(db, b);
    }
  }

  // ---------- rows survive every commit the triggers allow ----------

  lemma DurableSurvives(db: Database, db': Database, b: Binding, at: int)
    requires TriggersAllow(db, db') && Durable(db, b, at)
    ensures Durable(db', b, at)
  {
    var r :| r in db.attempts && ClaimedAttempt(r, b, at);
    assert Protected(r);
    var r' :| r' in db'.attempts && TriggerAllowsUpdate(r, r');
    assert ClaimedAttempt(r', b, at);
  }

  lemma OwnershipSurvives(db: Database, db': Database, b: Binding, receipt: Receipt, at: int)
    requires TriggersAllow(db, db') && DurableOwnership(db, b, receipt, at)
    ensures DurableOwnership(db', b, receipt, at)
  {
    var r :| r in db.attempts && OwnsTask(r, b, receipt.taskId, at);
    var r' :| r' in db'.attempts && TriggerAllowsUpdate(r, r');
    assert OwnsTask(r', b, receipt.taskId, at);
  }

  lemma HistorySurvives(db: Database, db': Database, s: State)
    requires TriggersAllow(db, db')
    requires ClaimsDurable(db, s.claims) && AcceptedInv(db, s.permits, s.accepted)
    ensures ClaimsDurable(db', s.claims) && AcceptedInv(db', s.permits, s.accepted)
  {
    forall b | b in s.claims ensures Durable(db', b, s.claims[b]) {
      DurableSurvives(db, db', b, s.claims[b]);
    }
    forall i | 0 <= i < |s.accepted|
      ensures DurableOwnership(db', s.permits[s.accepted[i].permit].binding,
                               s.permits[s.accepted[i].permit].receipt.value, s.accepted[i].at)
    {
      OwnershipSurvives(db, db', s.permits[s.accepted[i].permit].binding,
                        s.permits[s.accepted[i].permit].receipt.value, s.accepted[i].at);
    }
  }

  /** The ledger's own writes pass the triggers. */
  lemma WriteClaimPassesTriggers(db: Database, b: Binding, now: int)
    ensures TriggersAllow(db, WriteClaim(db, b, now))
  {
    var db' := WriteClaim(db, b, now);
    forall r | r in db.attempts ensures exists r' | r' in db'.attempts :: TriggerAllowsUpdate(r, r') {
      assert r in db'.attempts && TriggerAllowsUpdate(r, r);
    }
  }

  lemma WriteOwnershipPassesTriggers(db: Database, row: AttemptRow, b: Binding, receipt: Receipt, now: int)
    requires row.providerTaskId.None? && row.submittedAt.None? && row.acceptanceEventId.None?
    ensures TriggerAllowsUpdate(row, OwnedAttempt(row, b, receipt.taskId, receipt.state, now))
    ensures TriggersAllow(db, WriteOwnership(db, row, b, receipt, now))
  {
    var db' := WriteOwnership(db, row, b, receipt, now);
    var owned := OwnedAttempt(row, b, receipt.taskId, receipt.state, now);
    forall r | r in db.attempts ensures exists r' | r' in db'.attempts :: TriggerAllowsUpdate(r, r') {
      if r == row { assert owned in db'.attempts; }
      else { assert r in db'.attempts && TriggerAllowsUpdate(r, r); }
    }
  }

  // ---------- locks ----------

  predicate KeepsLocks(pc: Pc, pc': Pc)
  {
    && (HoldsRun(pc') ==> HoldsRun(pc) && pc'.task.b.runId == pc.task.b.runId)
    && (HoldsIdentity(pc') ==> HoldsIdentity(pc))
  }

  lemma ReleasingLocks(tasks: seq<Pc>, tasks': seq<Pc>)
    requires LocksExclusive(tasks) && |tasks'| == |tasks|
    requires forall i | 0 <= i < |tasks| :: KeepsLocks(tasks[i], tasks'[i])
    ensures LocksExclusive(tasks')
  {
    forall p, q | 0 <= p < |tasks| && 0 <= q < |tasks| && p != q
      ensures !(HoldsIdentity(tasks'[p]) && HoldsIdentity(tasks'[q]))
      ensures HoldsRun(tasks'[p]) && HoldsRun(tasks'[q]) ==> tasks'[p].task.b.runId != tasks'[q].task.b.runId
    {
      assert KeepsLocks(tasks[p], tasks'[p]) && KeepsLocks(tasks[q], tasks'[q]);
    }
  }

  /** A granted lock is free: the statement that takes it waits while another task holds it. */
  lemma TakingLocks(s: State, p: nat, now: int)
    requires LocksExclusive(s.tasks) && p < |s.tasks| && InReads(s.tasks[p]) && !Blocked(s, p)
    ensures LocksExclusive(s.tasks[p := NextPc(s.db, s.tasks[p], now)])
  {
    var pc := s.tasks[p];
    var pc' := NextPc(s.db, pc, now);
    if pc.WaitRun? || pc.WaitIdentity? {
      forall q | 0 <= q < |s.tasks| && q != p
        ensures !(HoldsIdentity(pc') && HoldsIdentity(s.tasks[q]))
        ensures HoldsRun(pc') && HoldsRun(s.tasks[q]) ==> pc'.task.b.runId != s.tasks[q].task.b.runId
      {
        assert !WaitsFor(s, p, q);
      }
    } else {
      ReleasingLocks(s.tasks, s.tasks[p := pc']);
    }
  }

  // ---------- each action keeps the invariant ----------

  lemma ForeignKeepsPcInv(s: State, db': Database, pc: Pc)
    requires PcInv(s, pc) && TriggersAllow(s.db, db') && LockedAttempts(pc) * s.db.attempts <= db'.attempts
    requires HoldsRun(pc) ==> RunUnchanged(s.db, db', pc.task.b.runId)
    ensures PcInv(s.(db := db'), pc)
  {
    if pc.WritingOwnership? { assert pc.row in LockedAttempts(pc) * s.db.attempts; }
    if (pc.LoadAuthorizations? || pc.LoadEvents?) && pc.task.RecordTask? {
      assert pc.attempts == LockedAttempts(pc) * s.db.attempts;
    }
  }

  lemma ForeignKeepsInv(s: State, db': Database)
    requires Inv(s) && Enabled(s, Foreign(db'))
    ensures Inv(Apply(s, Foreign(db')))
  {
    HistorySurvives(s.db, db', s);
    forall p | 0 <= p < |s.tasks| ensures PcInv(s.(db := db'), s.tasks[p]) {
      ForeignKeepsPcInv(s, db', s.tasks[p]);
    }
  }

  lemma EmptyEventsCoverKeys(s: State, b: Binding)
    requires ClaimsDurable(s.db, s.claims) && SelectEvents(s.db, b) == {} && NonceUnused(s.claims, b.nonceSha)
    ensures forall c | c in s.claims :: KeysDisjoint(b, c)
  {
    forall c | c in s.claims ensures KeysDisjoint(b, c) {
      EventSelectionCoversKeys(s.db, b, c, s.claims[c]);
    }
  }

  lemma ClaimReadsKeepPcInv(s: State, pc: Pc, now: int)
    requires ClaimsDurable(s.db, s.claims) && PcInv(s, pc) && pc.LoadEvents? && pc.task.ClaimTask?
    ensures PcInv(s, NextPc(s.db, pc, now))
  {
    var events := SelectEvents(s.db, pc.task.b);
    var rows := GroupRows(pc.attempts, pc.authorizations, events);
    if Classify(rows, pc.task.b, pc.runState).NoExisting? {
      assert events == rows.claimEvents + rows.acceptanceEvents + rows.unexpectedEvents;
      EmptyEventsCoverKeys(s, pc.task.b);
    }
  }

  /** A submission-unknown claim is exactly one matching, unowned Attempt. */
  lemma SubmissionUnknownRow(rows: LedgerRows, b: Binding, runState: RunState)
    requires Classify(rows, b, runState) == Gate(SubmissionUnknown)
    ensures |rows.attempts| == 1 && AttemptMatches(TheOnly(rows.attempts), b)
  {
  }

  lemma RecordReadsKeepPcInv(s: State, pc: Pc, now: int)
    requires PcInv(s, pc) && pc.LoadEvents? && pc.task.RecordTask?
    ensures PcInv(s, NextPc(s.db, pc, now))
  {
    var rows := GroupRows(pc.attempts, pc.authorizations, SelectEvents(s.db, pc.task.b));
    if Classify(rows, pc.task.b, pc.runState) == Gate(SubmissionUnknown) {
      SubmissionUnknownRow(rows, pc.task.b, pc.runState);
      assert TheOnly(pc.attempts) in pc.attempts;
    }
  }

  lemma StatementKeepsPcInv(s: State, pc: Pc, now: int)
    requires ClaimsDurable(s.db, s.claims) && PcInv(s, pc) && InReads(pc)
    ensures PcInv(s, NextPc(s.db, pc, now))
  {
    match pc {
      case LoadEvents(ClaimTask(_), _, _, _, _) => ClaimReadsKeepPcInv(s, pc, now);
      case LoadEvents(RecordTask(_, _), _, _, _, _) => RecordReadsKeepPcInv(s, pc, now);
      case LoadAuthorizations(t, _, _, _) =>
        if SelectAuthorizations(s.db, t.b) == {} { AuthorizationSelectionCoversNonce(s.db, t.b, s.claims); }
      case _ =>
    }
  }

  lemma ProceedKeepsInv(s: State, p: nat, now: int)
    requires Inv(s) && p < |s.tasks| && InReads(s.tasks[p]) && !Blocked(s, p)
    ensures Inv(s.(tasks := s.tasks[p := NextPc(s.db, s.tasks[p], now)]))
  {
    assert PcInv(s, s.tasks[p]);
    StatementKeepsPcInv(s, s.tasks[p], now);
    TakingLocks(s, p, now);
    TaskUpdateKeepsInv(s, p, NextPc(s.db, s.tasks[p], now));
  }

  /** A task that does not hold the identity lock knows nothing another task's commit could spoil. */
  lemma CommitKeepsOtherPcInv(s: State, s': State, pc: Pc)
    requires PcInv(s, pc) && !HoldsIdentity(pc)
    requires s.permits <= s'.permits && s'.db.runs == s.db.runs
    ensures PcInv(s', pc)
  {
    if !pc.Idle? && pc.task.RecordTask? {
      assert s'.permits[pc.task.permit] == s.permits[pc.task.permit];
    }
  }

  lemma CommitKeepsPcs(s: State, s': State, c: nat)
    requires c < |s.tasks| && HoldsIdentity(s.tasks[c]) && LocksExclusive(s.tasks)
    requires forall p | 0 <= p < |s.tasks| :: PcInv(s, s.tasks[p])
    requires s'.tasks == s.tasks[c := Idle] || s'.tasks == s.tasks[c := Rechecking(s.tasks[c].task, CommitResultUnknown)]
    requires s.permits <= s'.permits && s'.db.runs == s.db.runs
    ensures LocksExclusive(s'.tasks)
    ensures forall p | 0 <= p < |s'.tasks| :: PcInv(s', s'.tasks[p])
  {
    forall p | 0 <= p < |s.tasks| ensures PcInv(s', s'.tasks[p]) {
      assert PcInv(s, s.tasks[p]);
      if p != c {
        assert !HoldsIdentity(s.tasks[p]);
        CommitKeepsOtherPcInv(s, s', s.tasks[p]);
      }
    }
    ReleasingLocks(s.tasks, s'.tasks);
  }

  lemma NewClaimIsDurable(db: Database, b: Binding, now: int)
    requires db.identity.Some? && IdentityMatches(db.identity.value, b)
    ensures Durable(WriteClaim(db, b, now), b, now)
  {
    assert ClaimedAttempt(NewAttempt(b, now), b, now);
    assert NewAttempt(b, now) in WriteClaim(db, b, now).attempts;
  }

  lemma NewClaimStaysDisjoint(claims: map<Binding, int>, b: Binding, now: int)
    requires ClaimsDisjoint(claims) && forall c | c in claims :: KeysDisjoint(b, c)
    ensures b !in claims && ClaimsDisjoint(claims[b := now])
  {
    assert !KeysDisjoint(b, b);
    var claims' := claims[b := now];
    forall c, d | c in claims' && d in claims' && c != d ensures KeysDisjoint(c, d) {
      if c == b { assert KeysDisjoint(b, d); } else if d == b { assert KeysDisjoint(b, c); }
    }
  }

  lemma NewClaimKeepsPermits(claims: map<Binding, int>, permits: seq<Permit>, b: Binding, now: int)
    requires PermitsInv(claims, permits) && b !in claims
    ensures PermitsInv(claims[b := now], permits)
    ensures PermitsInv(claims[b := now], permits + [Permit(b, now, true, false, None)])
  {
  }

  lemma MorePermitsKeepAccepted(db: Database, permits: seq<Permit>, permits': seq<Permit>, accepted: seq<Acceptance>)
    requires AcceptedInv(db, permits, accepted) && permits <= permits'
    ensures AcceptedInv(db, permits', accepted)
  {
  }

  lemma CommitClaimKeepsInv(s: State, p: nat, acknowledged: bool)
    requires Inv(s) && CanCommitClaim(s, p)
    ensures Inv(ClaimCommitted(s, p, acknowledged))
    ensures s.tasks[p].task.b !in s.claims
  {
    var s' := ClaimCommitted(s, p, acknowledged);
    var b, now := s.tasks[p].task.b, s.tasks[p].now;
    assert PcInv(s, s.tasks[p]);
    NewClaimStaysDisjoint(s.claims, b, now);
    NewClaimKeepsPermits(s.claims, s.permits, b, now);
    WriteClaimKeepsHistory(s, b, now);
    MorePermitsKeepAccepted(s'.db, s.permits, s'.permits, s.accepted);
    CommitKeepsPcs(s, s', p);
  }

  lemma WriteClaimKeepsHistory(s: State, b: Binding, now: int)
    requires ClaimsDurable(s.db, s.claims) && AcceptedInv(s.db, s.permits, s.accepted)
    requires s.db.identity.Some? && IdentityMatches(s.db.identity.value, b)
    ensures ClaimsDurable(WriteClaim(s.db, b, now), s.claims[b := now])
    ensures AcceptedInv(WriteClaim(s.db, b, now), s.permits, s.accepted)
  {
    var db' := WriteClaim(s.db, b, now);
    WriteClaimPassesTriggers(s.db, b, now);
    HistorySurvives(s.db, db', s);
    NewClaimIsDurable(s.db, b, now);
    ClaimsStayDurable(db', s.claims, b, now);
  }

  lemma ClaimsStayDurable(db: Database, claims: map<Binding, int>, b: Binding, now: int)
    requires ClaimsDurable(db, claims) && Durable(db, b, now)
    ensures ClaimsDurable(db, claims[b := now])
  {
  }

  /** A permit whose ownership is durable has no pre-ownership row left to write to. */
  lemma OwnershipIsNotRepeated(db: Database, row: AttemptRow, b: Binding, receipt: Receipt, at: int)
    requires Consistent(db) && row in db.attempts && row.id == AttemptIdOf(b) && row.providerTaskId.None?
    ensures !DurableOwnership(db, b, receipt, at)
  {
    if DurableOwnership(db, b, receipt, at) {
      var r :| r in db.attempts && OwnsTask(r, b, receipt.taskId, at);
      assert AttemptsClash(r, row);
      assert false;
    }
  }

  lemma UnownedRowHasNoAcceptance(db: Database, row: AttemptRow)
    requires Consistent(db) && row in db.attempts && row.providerTaskId.None?
    ensures row.acceptanceEventId.None?
  {
    assert AttemptCheck(row);
  }

  lemma WriteOwnershipKeepsHistory(s: State, row: AttemptRow, k: nat, now: int)
    requires Consistent(s.db) && ClaimsDurable(s.db, s.claims) && AcceptedInv(s.db, s.permits, s.accepted)
    requires k < |s.permits| && s.permits[k].receipt.Some?
    requires row in s.db.attempts && AttemptMatches(row, s.permits[k].binding) && PreOwnership(row)
    ensures var db' := WriteOwnership(s.db, row, s.permits[k].binding, s.permits[k].receipt.value, now);
            ClaimsDurable(db', s.claims) && AcceptedInv(db', s.permits, s.accepted + [Acceptance(k, now)])
  {
    var b, receipt := s.permits[k].binding, s.permits[k].receipt.value;
    var db' := WriteOwnership(s.db, row, b, receipt, now);
    UnownedRowHasNoAcceptance(s.db, row);
    WriteOwnershipPassesTriggers(s.db, row, b, receipt, now);
    HistorySurvives(s.db, db', s);
    NewOwnershipIsDurable(s.db, row, b, receipt, now);
    NewAcceptanceKeepsAccepted(s, db', row, k, now);
  }

  lemma CommitOwnershipKeepsInv(s: State, p: nat, acknowledged: bool)
    requires Inv(s) && CanCommitOwnership(s, p)
    ensures Inv(OwnershipCommitted(s, p, acknowledged))
  {
    var s' := OwnershipCommitted(s, p, acknowledged);
    assert PcInv(s, s.tasks[p]);
    WriteOwnershipKeepsHistory(s, s.tasks[p].row, s.tasks[p].task.permit, s.tasks[p].now);
    CommitKeepsPcs(s, s', p);
  }

  lemma NewAcceptanceKeepsAccepted(s: State, db': Database, row: AttemptRow, k: nat, now: int)
    requires Consistent(s.db) && AcceptedInv(s.db, s.permits, s.accepted) && AcceptedInv(db', s.permits, s.accepted)
    requires k < |s.permits| && s.permits[k].receipt.Some?
    requires row in s.db.attempts && row.id == AttemptIdOf(s.permits[k].binding) && row.providerTaskId.None?
    requires DurableOwnership(db', s.permits[k].binding, s.permits[k].receipt.value, now)
    ensures AcceptedInv(db', s.permits, s.accepted + [Acceptance(k, now)])
  {
    forall i | 0 <= i < |s.accepted| ensures s.accepted[i].permit != k {
      OwnershipIsNotRepeated(s.db, row, s.permits[k].binding, s.permits[k].receipt.value, s.accepted[i].at);
    }
  }

  lemma NewOwnershipIsDurable(db: Database, row: AttemptRow, b: Binding, receipt: Receipt, now: int)
    requires row.id == AttemptIdOf(b) && Protected(row)
    ensures DurableOwnership(WriteOwnership(db, row, b, receipt, now), b, receipt, now)
  {
    var owned := OwnedAttempt(row, b, receipt.taskId, receipt.state, now);
    assert owned in WriteOwnership(db, row, b, receipt, now).attempts && OwnsTask(owned, b, receipt.taskId, now);
  }

  lemma TaskUpdateKeepsInv(s: State, p: nat, pc: Pc)
    requires Inv(s) && p < |s.tasks| && PcInv(s, pc) && LocksExclusive(s.tasks[p := pc])
    ensures Inv(s.(tasks := s.tasks[p := pc]))
  {
    var s' := s.(tasks := s.tasks[p := pc]);
    forall q | 0 <= q < |s.tasks| ensures PcInv(s', s'.tasks[q]) { assert PcInv(s, s.tasks[q]); }
  }

  lemma LocalPcKeepsInv(s: State, p: nat, pc: Pc)
    requires Inv(s) && p < |s.tasks| && PcInv(s, pc) && KeepsLocks(s.tasks[p], pc)
    ensures Inv(s.(tasks := s.tasks[p := pc]))
  {
    ReleasingLocks(s.tasks, s.tasks[p := pc]);
    TaskUpdateKeepsInv(s, p, pc);
  }

  lemma CrashKeepsTasks(s: State, gone: set<nat>)
    requires Inv(s)
    ensures Inv(s.(tasks := ClearTasks(s.tasks, gone)))
  {
    var s' := s.(tasks := ClearTasks(s.tasks, gone));
    forall q | 0 <= q < |s.tasks| ensures PcInv(s', s'.tasks[q]) { assert PcInv(s, s.tasks[q]); }
    ReleasingLocks(s.tasks, s'.tasks);
  }

  /** A permit object keeps its binding and claim time, and a receipt once issued stays as it is. */
  predicate PermitGrows(before: Permit, after: Permit)
  {
    && after.binding == before.binding && after.claimedAt == before.claimedAt
    && (before.consumed ==> after.consumed)
    && (before.receipt.Some? ==> after.receipt == before.receipt)
    && (after.receipt.Some? ==> after.consumed && IsTaskId(after.receipt.value.taskId)
                                && after.receipt.value.state.Known())
  }

  lemma PermitUpdateKeepsInv(s: State, permits': seq<Permit>)
    requires Inv(s) && |permits'| == |s.permits|
    requires forall i | 0 <= i < |s.permits| :: PermitGrows(s.permits[i], permits'[i])
    ensures Inv(s.(permits := permits'))
  {
    var s' := s.(permits := permits');
    forall q | 0 <= q < |s.tasks| ensures PcInv(s', s'.tasks[q]) {
      assert PcInv(s, s.tasks[q]);
      var pc := s.tasks[q];
      if !pc.Idle? && pc.task.RecordTask? { assert PermitGrows(s.permits[pc.task.permit], permits'[pc.task.permit]); }
    }
    PermitUpdateKeepsAccepted(s, permits');
    PermitUpdateKeepsPermits(s, permits');
  }

  lemma PermitUpdateKeepsPermits(s: State, permits': seq<Permit>)
    requires PermitsInv(s.claims, s.permits) && |permits'| == |s.permits|
    requires forall i | 0 <= i < |s.permits| :: PermitGrows(s.permits[i], permits'[i])
    ensures PermitsInv(s.claims, permits')
  {
    forall i, j | 0 <= i < j < |permits'| ensures permits'[i].binding != permits'[j].binding {
      assert PermitGrows(s.permits[i], permits'[i]) && PermitGrows(s.permits[j], permits'[j]);
    }
  }

  lemma PermitUpdateKeepsAccepted(s: State, permits': seq<Permit>)
    requires AcceptedInv(s.db, s.permits, s.accepted) && |permits'| == |s.permits|
    requires forall i | 0 <= i < |s.permits| :: PermitGrows(s.permits[i], permits'[i])
    ensures AcceptedInv(s.db, permits', s.accepted)
  {
    forall i | 0 <= i < |s.accepted|
      ensures permits'[s.accepted[i].permit].receipt == s.permits[s.accepted[i].permit].receipt
      ensures permits'[s.accepted[i].permit].binding == s.permits[s.accepted[i].permit].binding
    {
      assert PermitGrows(s.permits[s.accepted[i].permit], permits'[s.accepted[i].permit]);
    }
  }

  lemma OnePermitKeepsInv(s: State, k: nat, permit: Permit)
    requires Inv(s) && k < |s.permits| && PermitGrows(s.permits[k], permit)
    ensures Inv(s.(permits := s.permits[k := permit]))
  {
    assert PermitsInv(s.claims, s.permits);
    PermitUpdateKeepsInv(s, s.permits[k := permit]);
  }

  lemma CrashKeepsInv(s: State, gone: set<nat>, lost: set<nat>)
    requires Inv(s)
    ensures Inv(Apply(s, Crash(gone, lost)))
  {
    PermitUpdateKeepsInv(s, ClearPermits(s.permits, lost));
    CrashKeepsTasks(s.(permits := ClearPermits(s.permits, lost)), gone);
  }

  /** Program points outside a transaction know only that a recording task has its receipt. */
  lemma UnlockedPcKeepsInv(s: State, p: nat, pc: Pc)
    requires Inv(s) && p < |s.tasks| && !HoldsRun(pc) && (!pc.Idle? ==> PermitIsIssued(s.permits, pc.task))
    ensures Inv(s.(tasks := s.tasks[p := pc]))
  {
    LocalPcKeepsInv(s, p, pc);
  }

  lemma TaskStepKeepsInv(s: State, a: Action)
    requires Inv(s) && Enabled(s, a) && (a.StartClaim? || a.StartRecord? || a.RollBack? || a.Recheck?)
    ensures Inv(Apply(s, a))
  {
    assert PcInv(s, s.tasks[a.p]);
    UnlockedPcKeepsInv(s, a.p, Apply(s, a).tasks[a.p]);
  }

  lemma StepKeepsInv(s: State, a: Action)
    requires Inv(s) && Enabled(s, a)
    ensures Inv(Apply(s, a))
  {
    match a
    case Proceed(p, now) => ProceedKeepsInv(s, p, now);
    case CommitClaim(p, acknowledged) => CommitClaimKeepsInv(s, p, acknowledged);
    case CommitOwnership(p, acknowledged) => CommitOwnershipKeepsInv(s, p, acknowledged);
    case Consume(k) => OnePermitKeepsInv(s, k, s.permits[k].(consumed := true));
    case IssueReceipt(k, receipt) => OnePermitKeepsInv(s, k, s.permits[k].(receipt := Some(receipt)));
    case Crash(gone, lost) => CrashKeepsInv(s, gone, lost);
    case Foreign(db) => ForeignKeepsInv(s, db);
    case _ => TaskStepKeepsInv(s, a);
  }

  lemma {:induction false} RunKeepsInv(s: State, run: seq<Action>)
    requires Inv(s) && Legal(s, run)
    ensures Inv(Exec(s, run))
    decreases |run|
  {
    if run != [] {
      StepKeepsInv(s, run[0]);
      RunKeepsInv(Apply(s, run[0]), run[1..]);
    }
  }

  lemma InitialInv(s: State)
    requires Initial(s)
    ensures Inv(s)
  {
  }
}
