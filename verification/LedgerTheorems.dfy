/** What holds in every run of the interleaved protocol. */
module LedgerTheorems {
  import opened Wrappers
  import opened Counting
  import opened LedgerTables
  import opened LedgerSchema
  import opened LedgerClassify
  import opened LedgerMachine
  import opened LedgerSafety

  // ---------- at most one permit ----------

  /**
   No two permits ever handed out, in any interleaving with any failures and any foreign commits, come
   from bindings that share a Run, an authorization id or digest, a plan, an execution, a nonce or a
   request fingerprint; nor do two committed claims.
   */
  lemma AtMostOncePermit(s0: State, run: seq<Action>)
    requires Initial(s0) && Legal(s0, run)
    ensures var s := Exec(s0, run);
            && (forall i, j | 0 <= i < j < |s.permits| :: KeysDisjoint(s.permits[i].binding, s.permits[j].binding))
            && (forall b, c | b in s.claims && c in s.claims && b != c :: KeysDisjoint(b, c))
  {
    InitialInv(s0);
    RunKeepsInv(s0, run);
    var s := Exec(s0, run);
    forall i, j | 0 <= i < j < |s.permits| ensures KeysDisjoint(s.permits[i].binding, s.permits[j].binding) {
      assert s.permits[i].binding != s.permits[j].binding;
    }
  }

  // ---------- conservation ----------

  function Receipted(permits: seq<Permit>): set<nat>
  {
    set i | 0 <= i < |permits| && permits[i].receipt.Some?
  }

  function Consumed(permits: seq<Permit>): set<nat>
  {
    set i | 0 <= i < |permits| && permits[i].consumed
  }

  function ClaimEvents(db: Database): set<EventRow>
  {
    set e | e in db.events && e.eventType == ClaimEvent
  }

  lemma {:induction false} IndicesBelow(s: set<nat>, n: nat)
    requires forall i | i in s :: i < n
    ensures |s| <= n
    decreases n
  {
    if n == 0 {
      assert s == {};
    } else {
      IndicesBelow(s - {n - 1}, n - 1);
    }
  }

  lemma AcceptancesWithinReceipts(s: State)
    requires AcceptedInv(s.db, s.permits, s.accepted)
    ensures |s.accepted| <= |Receipted(s.permits)|
  {
    var indices := seq(|s.accepted|, i requires 0 <= i < |s.accepted| => s.accepted[i].permit);
    DistinctWithin(indices, Receipted(s.permits));
  }

  lemma PermitsWithinClaims(s: State)
    requires PermitsInv(s.claims, s.permits)
    ensures |s.permits| <= |s.claims|
  {
    var bindings := seq(|s.permits|, i requires 0 <= i < |s.permits| => s.permits[i].binding);
    DistinctWithin(bindings, s.claims.Keys);
  }

  lemma DisjointClaimEvents(b: Binding, at: int, c: Binding, at': int)
    requires KeysDisjoint(b, c)
    ensures NewClaimEvent(b, at) != NewClaimEvent(c, at')
  {}

  lemma ClaimEventIsThere(db: Database, b: Binding, at: int)
    requires Durable(db, b, at)
    ensures NewClaimEvent(b, at) in ClaimEvents(db)
  {}

  lemma ClaimsWithinEvents(s: State)
    requires ClaimsDurable(s.db, s.claims) && ClaimsDisjoint(s.claims)
    ensures |s.claims| <= |ClaimEvents(s.db)|
  {
    var written := (b: Binding) => NewClaimEvent(b, if b in s.claims then s.claims[b] else 0);
    forall b | b in s.claims.Keys ensures written(b) in ClaimEvents(s.db) {
      ClaimEventIsThere(s.db, b, s.claims[b]);
    }
    forall b, c | b in s.claims.Keys && c in s.claims.Keys && written(b) == written(c) ensures b == c {
      if b != c { DisjointClaimEvents(b, s.claims[b], c, s.claims[c]); }
    }
    InjectiveImage(s.claims.Keys, written, ClaimEvents(s.db));
  }

  /** Acceptances <= receipts <= consumed permits <= permits <= claims <= claim events in the database. */
  lemma Conservation(s0: State, run: seq<Action>)
    requires Initial(s0) && Legal(s0, run)
    ensures var s := Exec(s0, run);
            |s.accepted| <= |Receipted(s.permits)| <= |Consumed(s.permits)| <= |s.permits|
            <= |s.claims| <= |ClaimEvents(s.db)|
  {
    InitialInv(s0);
    RunKeepsInv(s0, run);
    var s := Exec(s0, run);
    AcceptancesWithinReceipts(s);
    SubsetSize(Receipted(s.permits), Consumed(s.permits));
    IndicesBelow(Consumed(s.permits), |s.permits|);
    PermitsWithinClaims(s);
    ClaimsWithinEvents(s);
  }

  // ---------- a claimed binding stays claimed ----------

  /** A claimed binding is never unclaimed again: no query comes back empty, so no second permit path opens. */
  lemma ClaimedStaysClaimed(s0: State, run: seq<Action>, b: Binding, runState: RunState)
    requires Initial(s0) && Legal(s0, run) && b in Exec(s0, run).claims
    ensures var s := Exec(s0, run);
            && Classify(LoadRows(s.db, b), b, runState) != NoExisting
            && ClassifyCanary(s.db, b) !in {Gate(NotFound), Gate(LedgerMismatch)}
  {
    InitialInv(s0);
    RunKeepsInv(s0, run);
    var s := Exec(s0, run);
    ClaimedAnswer(s.db, b, s.claims[b], runState);
  }

  lemma ClaimedAnswer(db: Database, b: Binding, at: int, runState: RunState)
    requires Consistent(db) && Durable(db, b, at)
    ensures Classify(LoadRows(db, b), b, runState) != NoExisting
    ensures ClassifyCanary(db, b) !in {Gate(NotFound), Gate(LedgerMismatch)}
  {
    ClaimedIsSelected(db, b, at, runState);
    assert b.runId in db.runs by { assert NewClaimEvent(b, at) in db.events; }
    ClaimedIsSelected(db, b, at, db.runs[b.runId]);
  }

  lemma ClaimedIsSelected(db: Database, b: Binding, at: int, runState: RunState)
    requires Durable(db, b, at)
    ensures Classify(LoadRows(db, b), b, runState) !in {NoExisting, Gate(NotFound), Gate(LedgerMismatch)}
  {
    assert NewClaimEvent(b, at) in LoadRows(db, b).claimEvents;
    ClassifyRange(LoadRows(db, b), b, runState);
  }

  lemma ClassifyRange(rows: LedgerRows, b: Binding, runState: RunState)
    requires rows.claimEvents != {}
    ensures Classify(rows, b, runState).Resume?
            || Classify(rows, b, runState) in
                 {Gate(Corruption), Gate(Conflict), Gate(SubmissionUnknown), Gate(NotEligible)}
  {
  }

  /**
   A commit that only inserts rows, whoever makes it, leaves the answer for a claimed binding as it was or
   turns it into CORRUPTION.
   */
  lemma InsertsOnlyDegrade(s0: State, run: seq<Action>, b: Binding, db': Database)
    requires Initial(s0) && Legal(s0, run) && b in Exec(s0, run).claims
    requires var db := Exec(s0, run).db;
             && db.attempts <= db'.attempts && db.authorizations <= db'.authorizations && db.events <= db'.events
             && db'.runs == db.runs && db'.identity == db.identity
    ensures SameOrCorrupt(ClassifyCanary(Exec(s0, run).db, b), ClassifyCanary(db', b))
  {
    InitialInv(s0);
    RunKeepsInv(s0, run);
    var s := Exec(s0, run);
    assert NewClaimEvent(b, s.claims[b]) in s.db.events;
    DurableHoldsClaim(s.db, b, s.claims[b]);
    InsertsWiden(s.db, db', b);
    ExtraRowsOnlyDegrade(s.db, s.db, s.db, b, s.db.runs[b.runId], LoadRows(db', b));
  }

  lemma DurableHoldsClaim(db: Database, b: Binding, at: int)
    requires Durable(db, b, at)
    ensures HoldsClaim(LoadRows(db, b)) && b.runId == NewClaimEvent(b, at).runId
  {
    var r :| r in db.attempts && ClaimedAttempt(r, b, at);
    assert r in LoadRows(db, b).attempts && NewAuthorization(b, at) in LoadRows(db, b).authorizations;
    assert NewClaimEvent(b, at) in LoadRows(db, b).claimEvents;
  }

  lemma InsertsWiden(db: Database, db': Database, b: Binding)
    requires db.attempts <= db'.attempts && db.authorizations <= db'.authorizations && db.events <= db'.events
    ensures Within(LoadRows(db, b), LoadRows(db', b))
  {
  }

  // ---------- an owned task never changes ----------

  predicate HasTask(db: Database, b: Binding, taskId: string, at: int)
  {
    exists r | r in db.attempts ::
      r.id == AttemptIdOf(b) && !NoEvidenceColumns(r) && r.providerTaskId == Some(taskId) && r.submittedAt == Some(at)
  }

  lemma StepPassesTriggers(s: State, a: Action)
    requires Inv(s) && Enabled(s, a)
    ensures TriggersAllow(s.db, Apply(s, a).db)
  {
    if a.CommitClaim? {
      WriteClaimPassesTriggers(s.db, s.tasks[a.p].task.b, s.tasks[a.p].now);
    } else if a.CommitOwnership? {
      assert PcInv(s, s.tasks[a.p]);
      var WritingOwnership(t, now, row) := s.tasks[a.p];
      UnownedRowHasNoAcceptance(s.db, row);
      WriteOwnershipPassesTriggers(s.db, row, t.b, s.permits[t.permit].receipt.value, now);
    } else if !a.Foreign? {
      NoChangePassesTriggers(s.db);
    }
  }

  lemma NoChangePassesTriggers(db: Database)
    ensures TriggersAllow(db, db)
  {
    forall r | r in db.attempts ensures exists r' | r' in db.attempts :: TriggerAllowsUpdate(r, r') {
      assert TriggerAllowsUpdate(r, r);
    }
  }

  lemma TaskSurvives(db: Database, db': Database, b: Binding, taskId: string, at: int)
    requires TriggersAllow(db, db') && HasTask(db, b, taskId, at)
    ensures HasTask(db', b, taskId, at)
  {
    var r :| r in db.attempts && r.id == AttemptIdOf(b) && !NoEvidenceColumns(r)
             && r.providerTaskId == Some(taskId) && r.submittedAt == Some(at);
    var r' :| r' in db'.attempts && TriggerAllowsUpdate(r, r');
    assert !NoEvidenceColumns(r');
  }

  lemma {:induction false} TaskSurvivesRun(s: State, run: seq<Action>, b: Binding, taskId: string, at: int)
    requires Inv(s) && Legal(s, run) && HasTask(s.db, b, taskId, at)
    ensures HasTask(Exec(s, run).db, b, taskId, at)
    decreases |run|
  {
    if run != [] {
      StepPassesTriggers(s, run[0]);
      TaskSurvives(s.db, Apply(s, run[0]).db, b, taskId, at);
      StepKeepsInv(s, run[0]);
      TaskSurvivesRun(Apply(s, run[0]), run[1..], b, taskId, at);
    }
  }

  lemma ResumeNamesTheRow(db: Database, b: Binding, task: OwnedTask)
    requires ClassifyCanary(db, b) == Resume(task)
    ensures task.runId == b.runId && task.jobId == b.jobId
            && task.authorizationSha == b.authorizationSha && task.requestFingerprint == b.requestFingerprint
    ensures HasTask(db, b, task.taskId, task.submittedAt)
  {
    var r := TheOnly(LoadRows(db, b).attempts);
    assert r in LoadRows(db, b).attempts && r in db.attempts;
  }

  lemma TaskIsUnique(db: Database, b: Binding, taskId: string, at: int, taskId': string, at': int)
    requires Consistent(db) && HasTask(db, b, taskId, at) && HasTask(db, b, taskId', at')
    ensures taskId == taskId' && at == at'
  {
    var r :| r in db.attempts && r.id == AttemptIdOf(b) && !NoEvidenceColumns(r)
             && r.providerTaskId == Some(taskId) && r.submittedAt == Some(at);
    var q :| q in db.attempts && q.id == AttemptIdOf(b) && !NoEvidenceColumns(q)
             && q.providerTaskId == Some(taskId') && q.submittedAt == Some(at');
    assert AttemptsClash(r, q);
  }

  /**
   Once some state resumes a task, every later state that resumes one resumes the same task with the
   same submission time, whatever updates, crashes and foreign commits lie between.
   */
  lemma ResumeIsStable(s0: State, run: seq<Action>, more: seq<Action>, b: Binding, first: OwnedTask, later: OwnedTask)
    requires Initial(s0) && Legal(s0, run) && Legal(Exec(s0, run), more)
    requires ClassifyCanary(Exec(s0, run).db, b) == Resume(first)
    requires ClassifyCanary(Exec(Exec(s0, run), more).db, b) == Resume(later)
    ensures first == later
  {
    InitialInv(s0);
    RunKeepsInv(s0, run);
    var s := Exec(s0, run);
    RunKeepsInv(s, more);
    ResumeNamesTheRow(s.db, b, first);
    ResumeNamesTheRow(Exec(s, more).db, b, later);
    TaskSurvivesRun(s, more, b, first.taskId, first.submittedAt);
    TaskIsUnique(Exec(s, more).db, b, first.taskId, first.submittedAt, later.taskId, later.submittedAt);
  }

  /** Every task id a receipt recorded is the one its claim resumes, in every later state that resumes one. */
  lemma AcceptedTaskIsTheResumedTask(s0: State, run: seq<Action>, i: nat, task: OwnedTask)
    requires Initial(s0) && Legal(s0, run) && i < |Exec(s0, run).accepted|
    requires Exec(s0, run).accepted[i].permit < |Exec(s0, run).permits|
    requires ClassifyCanary(Exec(s0, run).db, Exec(s0, run).permits[Exec(s0, run).accepted[i].permit].binding)
             == Resume(task)
    ensures var s := Exec(s0, run);
            var permit := s.permits[s.accepted[i].permit];
            permit.receipt.Some? && task.taskId == permit.receipt.value.taskId && task.submittedAt == s.accepted[i].at
  {
    InitialInv(s0);
    RunKeepsInv(s0, run);
    var s := Exec(s0, run);
    var permit := s.permits[s.accepted[i].permit];
    var r :| r in s.db.attempts && OwnsTask(r, permit.binding, permit.receipt.value.taskId, s.accepted[i].at);
    assert HasTask(s.db, permit.binding, permit.receipt.value.taskId, s.accepted[i].at);
    ResumeNamesTheRow(s.db, permit.binding, task);
    TaskIsUnique(s.db, permit.binding, task.taskId, task.submittedAt, permit.receipt.value.taskId, s.accepted[i].at);
  }

  // ---------- interference freedom ----------

  lemma ClaimRowsInvisible(db: Database, b: Binding, c: Binding, now: int)
    requires KeysDisjoint(b, c)
    ensures LoadRows(WriteClaim(db, c, now), b) == LoadRows(db, b)
  {
    var db' := WriteClaim(db, c, now);
    ClaimEventInvisible(b, c, now);
    assert !SelectsAttempt(b, NewAttempt(c, now));
    assert !SelectsAuthorization(b, NewAuthorization(c, now));
    assert SelectAttempts(db', b) == SelectAttempts(db, b);
    assert SelectAuthorizations(db', b) == SelectAuthorizations(db, b);
    assert SelectEvents(db', b) == SelectEvents(db, b);
  }

  lemma ClaimEventInvisible(b: Binding, c: Binding, now: int)
    requires KeysDisjoint(b, c)
    ensures !SelectsEvent(b, NewClaimEvent(c, now))
  {
  }

  lemma AcceptanceEventInvisible(b: Binding, c: Binding, receipt: Receipt, now: int)
    requires KeysDisjoint(b, c)
    ensures !SelectsEvent(b, NewAcceptanceEvent(c, receipt.taskId, receipt.state, now))
  {
  }

  lemma OwnershipRowsInvisible(db: Database, row: AttemptRow, b: Binding, c: Binding, receipt: Receipt, now: int)
    requires KeysDisjoint(b, c) && row in db.attempts && AttemptMatches(row, c)
    ensures LoadRows(WriteOwnership(db, row, c, receipt, now), b) == LoadRows(db, b)
  {
    var db' := WriteOwnership(db, row, c, receipt, now);
    var owned := OwnedAttempt(row, c, receipt.taskId, receipt.state, now);
    AcceptanceEventInvisible(b, c, receipt, now);
    assert !SelectsAttempt(b, row) && !SelectsAttempt(b, owned);
    assert SelectAttempts(db', b) == SelectAttempts(db, b);
    assert SelectAuthorizations(db', b) == SelectAuthorizations(db, b);
    assert SelectEvents(db', b) == SelectEvents(db, b);
  }

  /** The one protocol step that changes what `b` selects. */
  predicate OwnStep(s: State, a: Action, b: Binding)
    requires Enabled(s, a)
  {
    a.CommitOwnership? && s.tasks[a.p].task.b == b
  }

  lemma SameRowsSameAnswer(db: Database, db': Database, b: Binding)
    requires LoadRows(db', b) == LoadRows(db, b) && db'.runs == db.runs && db'.identity == db.identity
    ensures ClassifyCanary(db', b) == ClassifyCanary(db, b)
  {
  }

  lemma OtherClaimIsInvisible(s: State, p: nat, b: Binding)
    requires CanCommitClaim(s, p) && PcInv(s, s.tasks[p]) && b in s.claims
    ensures LoadRows(WriteClaim(s.db, s.tasks[p].task.b, s.tasks[p].now), b) == LoadRows(s.db, b)
  {
    assert KeysDisjoint(s.tasks[p].task.b, b);
    ClaimRowsInvisible(s.db, b, s.tasks[p].task.b, s.tasks[p].now);
  }

  lemma OtherOwnershipIsInvisible(s: State, p: nat, b: Binding)
    requires CanCommitOwnership(s, p) && PcInv(s, s.tasks[p]) && b in s.claims && s.tasks[p].task.b != b
    requires ClaimsDisjoint(s.claims) && PermitsInv(s.claims, s.permits)
    ensures LoadRows(OwnershipCommitted(s, p, true).db, b) == LoadRows(s.db, b)
  {
    var WritingOwnership(t, now, row) := s.tasks[p];
    assert t.b in s.claims && KeysDisjoint(b, t.b);
    OwnershipRowsInvisible(s.db, row, b, t.b, s.permits[t.permit].receipt.value, now);
  }

  lemma ProtocolStepKeepsRuns(s: State, a: Action)
    requires Enabled(s, a) && !a.Foreign?
    ensures Apply(s, a).db.runs == s.db.runs && Apply(s, a).db.identity == s.db.identity
  {
  }

  lemma OtherStepsKeepRows(s: State, a: Action, b: Binding)
    requires Inv(s) && Enabled(s, a) && b in s.claims && !a.Foreign? && !OwnStep(s, a, b)
    ensures LoadRows(Apply(s, a).db, b) == LoadRows(s.db, b)
  {
    if a.CommitClaim? {
      OtherClaimIsInvisible(s, a.p, b);
    } else if a.CommitOwnership? {
      OtherOwnershipIsInvisible(s, a.p, b);
    }
  }

  /**
   No protocol step of any other binding changes the rows that a claimed binding selects, so none
   changes how it classifies.
   */
  lemma OtherStepsAreInvisible(s: State, a: Action, b: Binding)
    requires Inv(s) && Enabled(s, a) && b in s.claims && !a.Foreign? && !OwnStep(s, a, b)
    ensures LoadRows(Apply(s, a).db, b) == LoadRows(s.db, b)
    ensures ClassifyCanary(Apply(s, a).db, b) == ClassifyCanary(s.db, b)
  {
    var db' := Apply(s, a).db;
    OtherStepsKeepRows(s, a, b);
    ProtocolStepKeepsRuns(s, a);
    SameRowsSameAnswer(s.db, db', b);
  }

  ghost predicate LeavesAlone(s: State, run: seq<Action>, b: Binding)
    requires Legal(s, run)
    decreases |run|
  {
    run == [] || (!run[0].Foreign? && !OwnStep(s, run[0], b) && LeavesAlone(Apply(s, run[0]), run[1..], b))
  }

  /** Interference freedom over whole runs. */
  lemma {:induction false} InterferenceFreedom(s: State, run: seq<Action>, b: Binding)
    requires Inv(s) && Legal(s, run) && b in s.claims && LeavesAlone(s, run, b)
    ensures ClassifyCanary(Exec(s, run).db, b) == ClassifyCanary(s.db, b)
    ensures LoadRows(Exec(s, run).db, b) == LoadRows(s.db, b)
    decreases |run|
  {
    if run != [] {
      OtherStepsAreInvisible(s, run[0], b);
      StepKeepsInv(s, run[0]);
      InterferenceFreedom(Apply(s, run[0]), run[1..], b);
    }
  }

  // ---------- lock discipline ----------

  function LockRank(pc: Pc): nat
  {
    if pc.WaitRun? then 0 else if pc.WaitIdentity? then 1 else 2
  }

  /** A task only ever waits for one further along the lock order, so no cycle of waiting tasks exists. */
  lemma WaitingFollowsLockOrder(s: State, p: nat, q: nat)
    requires LocksExclusive(s.tasks) && p < |s.tasks| && q < |s.tasks| && WaitsFor(s, p, q)
    ensures LockRank(s.tasks[p]) < LockRank(s.tasks[q])
  {
    assert s.tasks[p].LoadAttempts? ==> HoldsIdentity(s.tasks[p]);
    assert !(HoldsIdentity(s.tasks[p]) && HoldsIdentity(s.tasks[q]));
  }

  /** A task whose next statement does not wait. */
  predicate CanMove(s: State, p: nat)
    requires p < |s.tasks|
  {
    !s.tasks[p].Idle? && !Blocked(s, p)
  }

  lemma {:induction false} SomeTaskMoves(s: State, p: nat)
    requires LocksExclusive(s.tasks) && p < |s.tasks| && !s.tasks[p].Idle?
    ensures exists q | 0 <= q < |s.tasks| :: CanMove(s, q)
    decreases 2 - LockRank(s.tasks[p])
  {
    if Blocked(s, p) {
      var q :| 0 <= q < |s.tasks| && WaitsFor(s, p, q);
      WaitingFollowsLockOrder(s, p, q);
      SomeTaskMoves(s, q);
    } else {
      assert CanMove(s, p);
    }
  }

  /** No deadlock: in every reachable state with a task inside a transaction, some task's next statement does not wait. */
  lemma NoDeadlock(s0: State, run: seq<Action>, p: nat)
    requires Initial(s0) && Legal(s0, run) && p < |Exec(s0, run).tasks| && !Exec(s0, run).tasks[p].Idle?
    ensures exists q | 0 <= q < |Exec(s0, run).tasks| :: CanMove(Exec(s0, run), q)
  {
    InitialInv(s0);
    RunKeepsInv(s0, run);
    SomeTaskMoves(Exec(s0, run), p);
  }

  /** The section from the first read to the commit is exclusive across every Run and both protocols. */
  lemma ReadsToCommitAreExclusive(s0: State, run: seq<Action>, p: nat, q: nat)
    requires Initial(s0) && Legal(s0, run)
    requires p < |Exec(s0, run).tasks| && q < |Exec(s0, run).tasks| && p != q
    ensures var s := Exec(s0, run);
            HoldsIdentity(s.tasks[p]) ==> !HoldsIdentity(s.tasks[q]) && !s.tasks[q].WritingClaim?
  {
    InitialInv(s0);
    RunKeepsInv(s0, run);
  }
}
