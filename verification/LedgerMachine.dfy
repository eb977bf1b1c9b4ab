/**
 The interleaved protocol. Any number of tasks run claim and ownership transactions against one
 database; a task advances one statement at a time (lock the Run, lock the identity singleton, three
 separate reads, commit), commits may lose their acknowledgement, transactions may roll back, tasks
 and the permits they hold may vanish in a crash, and other clients may commit anything the schema
 allows between any two statements.
 */
module LedgerMachine {
  import opened Wrappers
  import opened LedgerTables
  import opened LedgerSchema
  import opened LedgerClassify

  datatype Receipt = Receipt(taskId: string, state: ProviderState)

  datatype Permit = Permit(binding: Binding, claimedAt: int, live: bool, consumed: bool, receipt: Option<Receipt>)

  datatype Acceptance = Acceptance(permit: nat, at: int)

  datatype Task = ClaimTask(b: Binding) | RecordTask(b: Binding, permit: nat)

  datatype Pc =
    | Idle
    | WaitRun(task: Task)
    | WaitIdentity(task: Task, runState: RunState)
    | LoadAttempts(task: Task, runState: RunState, now: int)
    | LoadAuthorizations(task: Task, runState: RunState, now: int, attempts: set<AttemptRow>)
    | LoadEvents(task: Task, runState: RunState, now: int, attempts: set<AttemptRow>,
                 authorizations: set<AuthorizationRow>)
    | WritingClaim(task: Task, now: int)
    | WritingOwnership(task: Task, now: int, row: AttemptRow)
    | Rechecking(task: Task, absent: ClaimFailure)

  /** `claims`, `permits` and `accepted` record what the protocol has done so far. */
  datatype State = State(
    db: Database, tasks: seq<Pc>,
    claims: map<Binding, int>, permits: seq<Permit>, accepted: seq<Acceptance>)

  datatype Action =
    | StartClaim(p: nat, b: Binding)
    | StartRecord(p: nat, permit: nat)
    | Proceed(p: nat, now: int)
    | CommitClaim(p: nat, acknowledged: bool)
    | CommitOwnership(p: nat, acknowledged: bool)
    | RollBack(p: nat, absent: ClaimFailure)
    | Recheck(p: nat)
    | Consume(permit: nat)
    | IssueReceipt(permit: nat, receipt: Receipt)
    | Crash(tasks: set<nat>, lost: set<nat>)
    | Foreign(db: Database)

  // ---------- locks ----------

  predicate HoldsRun(pc: Pc) { !pc.Idle? && !pc.WaitRun? && !pc.Rechecking? }

  /** The Run state read under the Run lock, while the task still works with it. */
  predicate KnowsRunState(pc: Pc)
  {
    pc.WaitIdentity? || pc.LoadAttempts? || pc.LoadAuthorizations? || pc.LoadEvents?
  }

  predicate HoldsIdentity(pc: Pc) { HoldsRun(pc) && !pc.WaitIdentity? }

  function LockedAttempts(pc: Pc): set<AttemptRow>
  {
    match pc
    case LoadAuthorizations(RecordTask(_, _), _, _, attempts) => attempts
    case LoadEvents(RecordTask(_, _), _, _, attempts, _) => attempts
    case WritingOwnership(_, _, row) => {row}
    case _ => {}
  }

  /** Task `q` holds a lock that task `p` needs for its next statement. */
  predicate WaitsFor(s: State, p: nat, q: nat)
    requires p < |s.tasks| && q < |s.tasks|
  {
    && p != q
    && match s.tasks[p]
       case WaitRun(t) => t.b.runId in s.db.runs && HoldsRun(s.tasks[q]) && s.tasks[q].task.b.runId == t.b.runId
       case WaitIdentity(_, _) => s.db.identity.Some? && HoldsIdentity(s.tasks[q])
       case LoadAttempts(RecordTask(b, _), _, _) => SelectAttempts(s.db, b) * LockedAttempts(s.tasks[q]) != {}
       case _ => false
  }

  predicate Blocked(s: State, p: nat)
    requires p < |s.tasks|
  {
    exists q | 0 <= q < |s.tasks| :: WaitsFor(s, p, q)
  }

  // ---------- statements ----------

  function WriteClaim(db: Database, b: Binding, now: int): Database
  {
    db.(attempts := db.attempts + {NewAttempt(b, now)},
        authorizations := db.authorizations + {NewAuthorization(b, now)},
        events := db.events + {NewClaimEvent(b, now)})
  }

  /** The WHERE clause of the ownership UPDATE. */
  predicate OwnershipTarget(r: AttemptRow, b: Binding, claimedAt: int)
  {
    && r.id == AttemptIdOf(b) && r.runId == b.runId && r.jobId == b.jobId && r.attempt == CANARY_ATTEMPT
    && r.attemptState == Some(PostInFlight) && r.providerTaskId.None? && r.submittedAt.None?
    && r.authorizationId == Some(b.authorizationId) && r.authorizationSha == Some(b.authorizationSha)
    && r.claimEventId == Some(ClaimEventId(b)) && r.claimedAt == Some(claimedAt)
  }

  function WriteOwnership(db: Database, r: AttemptRow, b: Binding, receipt: Receipt, now: int): Database
  {
    db.(attempts := db.attempts - {r} + {OwnedAttempt(r, b, receipt.taskId, receipt.state, now)},
        events := db.events + {NewAcceptanceEvent(b, receipt.taskId, receipt.state, now)})
  }

  predicate PreOwnership(r: AttemptRow)
  {
    && r.attemptState == Some(PostInFlight) && r.state == Running
    && r.providerTaskId.None? && r.providerState.None? && r.submittedAt.None?
  }

  function AfterClaimReads(b: Binding, runState: RunState, now: int, rows: LedgerRows): Pc
  {
    if Classify(rows, b, runState).NoExisting? && runState == Running && ClaimTimeIsValid(b, now)
    then WritingClaim(ClaimTask(b), now)
    else Idle
  }

  function AfterRecordReads(b: Binding, permit: nat, runState: RunState, now: int, rows: LedgerRows): Pc
  {
    if Classify(rows, b, runState) == Gate(SubmissionUnknown)
       && PreOwnership(TheOnly(rows.attempts)) && rows.acceptanceEvents == {}
    then WritingOwnership(RecordTask(b, permit), now, TheOnly(rows.attempts))
    else Idle
  }

  /** The next statement of a transaction that holds or is granted the locks it needs. */
  function NextPc(db: Database, pc: Pc, now: int): Pc
  {
    match pc
    case WaitRun(t) => if t.b.runId in db.runs then WaitIdentity(t, db.runs[t.b.runId]) else Idle
    case WaitIdentity(t, runState) =>
      if db.identity.Some? && IdentityMatches(db.identity.value, t.b) then LoadAttempts(t, runState, now) else Idle
    case LoadAttempts(t, runState, at) => LoadAuthorizations(t, runState, at, SelectAttempts(db, t.b))
    case LoadAuthorizations(t, runState, at, attempts) =>
      LoadEvents(t, runState, at, attempts, SelectAuthorizations(db, t.b))
    case LoadEvents(t, runState, at, attempts, authorizations) =>
      var rows := GroupRows(attempts, authorizations, SelectEvents(db, t.b));
      (match t
       case ClaimTask(b) => AfterClaimReads(b, runState, at, rows)
       case RecordTask(b, permit) => AfterRecordReads(b, permit, runState, now, rows))
    case _ => pc
  }

  predicate InReads(pc: Pc)
  {
    pc.WaitRun? || pc.WaitIdentity? || pc.LoadAttempts? || pc.LoadAuthorizations? || pc.LoadEvents?
  }

  function ClearTasks(tasks: seq<Pc>, gone: set<nat>): (r: seq<Pc>)
    ensures |r| == |tasks|
    ensures forall i | 0 <= i < |r| :: r[i] == if i in gone then Idle else tasks[i]
  {
    seq(|tasks|, i requires 0 <= i < |tasks| => if i in gone then Idle else tasks[i])
  }

  function ClearPermits(permits: seq<Permit>, lost: set<nat>): (r: seq<Permit>)
    ensures |r| == |permits|
    ensures forall i | 0 <= i < |r| :: r[i] == if i in lost then permits[i].(live := false) else permits[i]
  {
    seq(|permits|, i requires 0 <= i < |permits| => if i in lost then permits[i].(live := false) else permits[i])
  }

  predicate CanCommitClaim(s: State, p: nat)
  {
    && p < |s.tasks| && s.tasks[p].WritingClaim?
    && Consistent(WriteClaim(s.db, s.tasks[p].task.b, s.tasks[p].now))
  }

  predicate CanCommitOwnership(s: State, p: nat)
  {
    && p < |s.tasks| && s.tasks[p].WritingOwnership? && s.tasks[p].task.RecordTask?
    && var WritingOwnership(t, now, row) := s.tasks[p];
    && t.permit < |s.permits| && s.permits[t.permit].receipt.Some?
    && row in s.db.attempts
    && OwnershipTarget(row, t.b, s.permits[t.permit].claimedAt)
    && Consistent(WriteOwnership(s.db, row, t.b, s.permits[t.permit].receipt.value, now))
  }

  /** Only an acknowledged commit hands back a permit. */
  function ClaimCommitted(s: State, p: nat, acknowledged: bool): State
    requires CanCommitClaim(s, p)
  {
    var WritingClaim(t, now) := s.tasks[p];
    s.(db := WriteClaim(s.db, t.b, now),
       claims := s.claims[t.b := now],
       permits := if acknowledged then s.permits + [Permit(t.b, now, true, false, None)] else s.permits,
       tasks := s.tasks[p := if acknowledged then Idle else Rechecking(t, CommitResultUnknown)])
  }

  function OwnershipCommitted(s: State, p: nat, acknowledged: bool): State
    requires CanCommitOwnership(s, p)
  {
    var WritingOwnership(t, now, row) := s.tasks[p];
    s.(db := WriteOwnership(s.db, row, t.b, s.permits[t.permit].receipt.value, now),
       accepted := s.accepted + [Acceptance(t.permit, now)],
       tasks := s.tasks[p := if acknowledged then Idle else Rechecking(t, CommitResultUnknown)])
  }

  predicate Enabled(s: State, a: Action)
  {
    match a
    case StartClaim(p, b) => p < |s.tasks| && s.tasks[p].Idle?
    case StartRecord(p, k) =>
      && p < |s.tasks| && s.tasks[p].Idle?
      && k < |s.permits| && s.permits[k].live && s.permits[k].receipt.Some?
    case Proceed(p, now) => p < |s.tasks| && InReads(s.tasks[p]) && !Blocked(s, p)
    case CommitClaim(p, _) => CanCommitClaim(s, p)
    case CommitOwnership(p, _) => CanCommitOwnership(s, p)
    case RollBack(p, _) => p < |s.tasks| && HoldsRun(s.tasks[p])
    case Recheck(p) => p < |s.tasks| && s.tasks[p].Rechecking?
    case Consume(k) => k < |s.permits| && s.permits[k].live && !s.permits[k].consumed
    case IssueReceipt(k, receipt) =>
      && k < |s.permits| && s.permits[k].live && s.permits[k].consumed && s.permits[k].receipt.None?
      && IsTaskId(receipt.taskId) && receipt.state.Known()
    case Crash(_, _) => true
    case Foreign(db) =>
      && ForeignCommit(s.db, db)
      && (forall p | 0 <= p < |s.tasks| ::
            && LockedAttempts(s.tasks[p]) * s.db.attempts <= db.attempts
            && (HoldsRun(s.tasks[p]) ==> RunUnchanged(s.db, db, s.tasks[p].task.b.runId)))
  }

  predicate RunUnchanged(db: Database, db': Database, run: string)
  {
    run in db.runs ==> run in db'.runs && db'.runs[run] == db.runs[run]
  }

  function Apply(s: State, a: Action): State
    requires Enabled(s, a)
  {
    match a
    case StartClaim(p, b) => s.(tasks := s.tasks[p := WaitRun(ClaimTask(b))])
    case StartRecord(p, k) => s.(tasks := s.tasks[p := WaitRun(RecordTask(s.permits[k].binding, k))])
    case Proceed(p, now) => s.(tasks := s.tasks[p := NextPc(s.db, s.tasks[p], now)])
    case CommitClaim(p, acknowledged) => ClaimCommitted(s, p, acknowledged)
    case CommitOwnership(p, acknowledged) => OwnershipCommitted(s, p, acknowledged)
    case RollBack(p, absent) => s.(tasks := s.tasks[p := Rechecking(s.tasks[p].task, absent)])
    case Recheck(p) => s.(tasks := s.tasks[p := Idle])
    case Consume(k) => s.(permits := s.permits[k := s.permits[k].(consumed := true)])
    case IssueReceipt(k, receipt) => s.(permits := s.permits[k := s.permits[k].(receipt := Some(receipt))])
    case Crash(gone, lost) => s.(tasks := ClearTasks(s.tasks, gone), permits := ClearPermits(s.permits, lost))
    case Foreign(db) => s.(db := db)
  }

  // ---------- runs ----------

  predicate Initial(s: State)
  {
    && Consistent(s.db)
    && (forall p | 0 <= p < |s.tasks| :: s.tasks[p].Idle?)
    && s.claims == map[] && s.permits == [] && s.accepted == []
  }

  ghost predicate Legal(s: State, run: seq<Action>)
    decreases |run|
  {
    run == [] || (Enabled(s, run[0]) && Legal(Apply(s, run[0]), run[1..]))
  }

  ghost function Exec(s: State, run: seq<Action>): State
    requires Legal(s, run)
    decreases |run|
  {
    if run == [] then s else Exec(Apply(s, run[0]), run[1..])
  }
}
