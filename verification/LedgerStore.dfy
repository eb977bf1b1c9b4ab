/**
 The process-local capabilities and the store as objects. A store method is one transaction run to its
 end; what the database session does with it is the parameter `outcome`. Each method is proved equal to
 a transaction function, and an uninterrupted transaction is a run of the interleaved machine.
 */
module LedgerStore {
  import opened Wrappers
  import opened LedgerTables
  import opened LedgerSchema
  import opened LedgerClassify
  import opened LedgerMachine
  import opened LedgerSafety
  import opened LedgerTheorems
  import opened LedgerQuiet
  import opened LedgerOutcomes

  // ---------- capabilities ----------

  datatype CapabilityError =
    | MalformedTaskId | UnknownProviderState | AlreadyConsumed | NotConsumed | ReceiptAlreadyIssued

  class SubmittedReceipt {
    const binding: Binding
    const authorizationSha: string
    const claimEventId: StableId
    const claimedAt: int
    const taskId: string
    const state: ProviderState

    constructor (binding: Binding, authorizationSha: string, claimEventId: StableId, claimedAt: int, taskId: string,
                 state: ProviderState)
      ensures this.binding == binding && this.authorizationSha == authorizationSha
      ensures this.claimEventId == claimEventId && this.claimedAt == claimedAt
      ensures this.taskId == taskId && this.state == state
    {
      this.binding := binding;
      this.authorizationSha := authorizationSha;
      this.claimEventId := claimEventId;
      this.claimedAt := claimedAt;
      this.taskId := taskId;
      this.state := state;
    }

    predicate Matches()
    {
      && authorizationSha == binding.authorizationSha && claimEventId == ClaimEventId(binding)
      && state.Known() && IsTaskId(taskId)
    }
  }

  class PostPermit {
    const binding: Binding
    const claimedAt: int
    var consumed: bool
    var receiptIssued: bool

    /** A receipt is only ever issued by a consumed permit. */
    predicate Valid()
      reads this
    {
      receiptIssued ==> consumed
    }

    constructor (binding: Binding, claimedAt: int)
      ensures this.binding == binding && this.claimedAt == claimedAt && !consumed && !receiptIssued
    {
      this.binding := binding;
      this.claimedAt := claimedAt;
      consumed := false;
      receiptIssued := false;
    }

    method Consume() returns (r: Result<(), CapabilityError>)
      requires Valid()
      modifies this`consumed
      ensures Valid() && consumed
      ensures r.Success? <==> !old(consumed)
      ensures r.Failure? ==> r.error == AlreadyConsumed
    {
      if consumed {
        return Failure(AlreadyConsumed);
      }
      consumed := true;
      return Success(());
    }

    method IssueReceipt(taskId: string, state: ProviderState) returns (r: Result<SubmittedReceipt, CapabilityError>)
      requires Valid()
      modifies this`receiptIssued
      ensures Valid()
      ensures r.Success? <==> IsTaskId(taskId) && state.Known() && consumed && !old(receiptIssued)
      ensures receiptIssued == (old(receiptIssued) || r.Success?)
      ensures r.Success? ==>
                && fresh(r.value) && r.value.Matches() && r.value.binding == binding
                && r.value.claimedAt == claimedAt && r.value.taskId == taskId && r.value.state == state
      ensures r.Failure? ==>
                r.error == if !IsTaskId(taskId) then MalformedTaskId
                           else if !state.Known() then UnknownProviderState
                           else if !consumed then NotConsumed else ReceiptAlreadyIssued
    {
      if !IsTaskId(taskId) {
        return Failure(MalformedTaskId);
      }
      if !state.Known() {
        return Failure(UnknownProviderState);
      }
      if !consumed {
        return Failure(NotConsumed);
      }
      if receiptIssued {
        return Failure(ReceiptAlreadyIssued);
      }
      receiptIssued := true;
      var receipt := new SubmittedReceipt(binding, binding.authorizationSha, ClaimEventId(binding), claimedAt, taskId, state);
      return Success(receipt);
    }
  }

  // ---------- transactions as functions ----------

  /** What the session does once every statement has been sent. */
  datatype Outcome = Acknowledged | AcknowledgementLost | Rejected(failure: ClaimFailure)

  datatype Answer = NewPermit(claimedAt: int) | Answered(c: Classification)

  datatype Committed = Committed(db: Database, answer: Answer)

  function ClaimTransaction(db: Database, b: Binding, now: int, outcome: Outcome): Committed
  {
    if b.runId !in db.runs then Committed(db, Answered(Gate(NotFound)))
    else if db.identity.None? then Committed(db, Answered(Gate(NotFound)))
    else if !IdentityMatches(db.identity.value, b) then Committed(db, Answered(Gate(LedgerMismatch)))
    else
      var existing := Classify(LoadRows(db, b), b, db.runs[b.runId]);
      if !existing.NoExisting? then Committed(db, Answered(existing))
      else if db.runs[b.runId] != Running then Committed(db, Answered(Gate(NotEligible)))
      else if !ClaimTimeIsValid(b, now) then Committed(db, Answered(Gate(NotCurrent)))
      else FinishClaim(db, b, now, outcome)
  }

  function FinishClaim(db: Database, b: Binding, now: int, outcome: Outcome): Committed
  {
    var written := WriteClaim(db, b, now);
    if outcome.Rejected? then Committed(db, Answered(ClassifyAfterFailure(db, b, outcome.failure)))
    else if !Consistent(written) then Committed(db, Answered(ClassifyAfterFailure(db, b, Conflict)))
    else if outcome.Acknowledged? then Committed(written, NewPermit(now))
    else Committed(written, Answered(ClassifyAfterFailure(written, b, CommitResultUnknown)))
  }

  function RecordTransaction(db: Database, b: Binding, receipt: Receipt, claimedAt: int, now: int, outcome: Outcome): Committed
  {
    if b.runId !in db.runs then Committed(db, Answered(Gate(NotFound)))
    else if db.identity.None? then Committed(db, Answered(Gate(NotFound)))
    else if !IdentityMatches(db.identity.value, b) then Committed(db, Answered(Gate(LedgerMismatch)))
    else
      var rows := LoadRows(db, b);
      var c := Classify(rows, b, db.runs[b.runId]);
      match c
      case Resume(task) =>
        Committed(db, Answered(if task.taskId == receipt.taskId then c else Gate(Conflict)))
      case NoExisting => Committed(db, Answered(Gate(Corruption)))
      case Gate(failure) =>
        if failure != SubmissionUnknown then Committed(db, Answered(c))
        else if !PreOwnership(TheOnly(rows.attempts)) || rows.acceptanceEvents != {} then
          Committed(db, Answered(Gate(Corruption)))
        else FinishRecord(db, TheOnly(rows.attempts), b, receipt, claimedAt, now, outcome)
  }

  function FinishRecord(db: Database, row: AttemptRow, b: Binding, receipt: Receipt, claimedAt: int, now: int,
                        outcome: Outcome): Committed
  {
    var written := WriteOwnership(db, row, b, receipt, now);
    if outcome.Rejected? then
      Committed(db, Answered(ClassifyOwnedAfterFailure(db, b, receipt.taskId, outcome.failure)))
    else if !OwnershipTarget(row, b, claimedAt) then
      Committed(db, Answered(ClassifyOwnedAfterFailure(db, b, receipt.taskId, TransactionRejected)))
    else if !Consistent(written) then
      Committed(db, Answered(ClassifyOwnedAfterFailure(db, b, receipt.taskId, Conflict)))
    else if outcome.Acknowledged? then Committed(written, Answered(RecordAnswer(b, receipt, now)))
    else Committed(written, Answered(ClassifyOwnedAfterFailure(written, b, receipt.taskId, CommitResultUnknown)))
  }

  // ---------- the store ----------

  datatype ClaimResult = Permitted(permit: PostPermit) | Refused(c: Classification)

  class CanaryLedgerStore {
    var db: Database

    constructor (db: Database)
      ensures this.db == db
    {
      this.db := db;
    }

    method Claim(b: Binding, now: int, outcome: Outcome) returns (r: ClaimResult)
      modifies this
      ensures db == ClaimTransaction(old(db), b, now, outcome).db
      ensures match ClaimTransaction(old(db), b, now, outcome).answer
              case NewPermit(at) =>
                && r.Permitted? && fresh(r.permit) && r.permit.Valid() && !r.permit.consumed
                && r.permit.binding == b && r.permit.claimedAt == at
              case Answered(c) => r == Refused(c)
    {
      if b.runId !in db.runs {
        return Refused(Gate(NotFound));
      }
      var runState := db.runs[b.runId];
      if db.identity.None? {
        return Refused(Gate(NotFound));
      }
      if !IdentityMatches(db.identity.value, b) {
        return Refused(Gate(LedgerMismatch));
      }
      var existing := Classify(LoadRows(db, b), b, runState);
      if !existing.NoExisting? {
        return Refused(existing);
      }
      if runState != Running {
        return Refused(Gate(NotEligible));
      }
      if !ClaimTimeIsValid(b, now) {
        return Refused(Gate(NotCurrent));
      }
      var written := db;
      written := written.(attempts := written.attempts + {NewAttempt(b, now)});
      written := written.(authorizations := written.authorizations + {NewAuthorization(b, now)});
      written := written.(events := written.events + {NewClaimEvent(b, now)});
      if outcome.Rejected? {
        return Refused(ClassifyAfterFailure(db, b, outcome.failure));
      }
      if !Consistent(written) {
        return Refused(ClassifyAfterFailure(db, b, Conflict));
      }
      db := written;
      if outcome.AcknowledgementLost? {
        return Refused(ClassifyAfterFailure(db, b, CommitResultUnknown));
      }
      var permit := new PostPermit(b, now);
      return Permitted(permit);
    }

    method RecordOwnedTask(receipt: SubmittedReceipt, now: int, outcome: Outcome) returns (c: Classification)
      modifies this
      ensures !receipt.Matches() ==> db == old(db) && c == Gate(Conflict)
      ensures receipt.Matches() ==>
                var t := RecordTransaction(old(db), receipt.binding, Receipt(receipt.taskId, receipt.state),
                                           receipt.claimedAt, now, outcome);
                db == t.db && t.answer == Answered(c)
    {
      var b := receipt.binding;
      if !receipt.Matches() {
        return Gate(Conflict);
      }
      if b.runId !in db.runs {
        return Gate(NotFound);
      }
      var runState := db.runs[b.runId];
      if db.identity.None? {
        return Gate(NotFound);
      }
      if !IdentityMatches(db.identity.value, b) {
        return Gate(LedgerMismatch);
      }
      var rows := LoadRows(db, b);
      var classified := Classify(rows, b, runState);
      if classified.Resume? {
        return if classified.task.taskId != receipt.taskId then Gate(Conflict) else classified;
      }
      if classified.NoExisting? {
        return Gate(Corruption);
      }
      if classified.failure != SubmissionUnknown {
        return classified;
      }
      SubmissionUnknownRow(rows, b, runState);
      var row := TheOnly(rows.attempts);
      if !PreOwnership(row) || rows.acceptanceEvents != {} {
        return Gate(Corruption);
      }
      if outcome.Rejected? {
        return ClassifyOwnedAfterFailure(db, b, receipt.taskId, outcome.failure);
      }
      if !OwnershipTarget(row, b, receipt.claimedAt) {
        return ClassifyOwnedAfterFailure(db, b, receipt.taskId, TransactionRejected);
      }
      var written := db;
      var owned := OwnedAttempt(row, b, receipt.taskId, receipt.state, now);
      written := written.(attempts := written.attempts - {row} + {owned});
      written := written.(events := written.events + {NewAcceptanceEvent(b, receipt.taskId, receipt.state, now)});
      if !Consistent(written) {
        return ClassifyOwnedAfterFailure(db, b, receipt.taskId, Conflict);
      }
      db := written;
      if outcome.AcknowledgementLost? {
        return ClassifyOwnedAfterFailure(db, b, receipt.taskId, CommitResultUnknown);
      }
      if receipt.state.TerminalFailure() {
        return Gate(NotEligible);
      }
      return Resume(OwnedTask(b.runId, b.jobId, receipt.taskId, b.authorizationSha, b.requestFingerprint, now));
    }
  }

  // ---------- a transaction run to its end is a run of the machine ----------

  /** Task `p` at `pc` while every other task is idle. */
  function At(s: State, p: nat, pc: Pc): State
    requires p < |s.tasks|
  {
    s.(tasks := s.tasks[p := pc])
  }

  ghost predicate AllIdle(s: State)
  {
    forall q | 0 <= q < |s.tasks| :: s.tasks[q].Idle?
  }

  function Reads(p: nat, now: int, n: nat): seq<Action>
  {
    seq(n, _ => Proceed(p, now))
  }

  function PcAfter(db: Database, pc: Pc, now: int, n: nat): Pc
    decreases n
  {
    if n == 0 then pc else PcAfter(db, NextPc(db, pc, now), now, n - 1)
  }

  predicate ReadsAhead(db: Database, pc: Pc, now: int, n: nat)
    decreases n
  {
    n == 0 || (InReads(pc) && ReadsAhead(db, NextPc(db, pc, now), now, n - 1))
  }

  lemma SoloStep(s: State, p: nat, pc: Pc, now: int)
    requires AllIdle(s) && p < |s.tasks| && InReads(pc)
    ensures Enabled(At(s, p, pc), Proceed(p, now))
    ensures Apply(At(s, p, pc), Proceed(p, now)) == At(s, p, NextPc(s.db, pc, now))
  {
    var alone := At(s, p, pc);
    forall q | 0 <= q < |alone.tasks| ensures !WaitsFor(alone, p, q) {
      assert q != p ==> alone.tasks[q].Idle?;
    }
  }

  lemma {:induction false} SoloReads(s: State, p: nat, pc: Pc, now: int, n: nat)
    requires AllIdle(s) && p < |s.tasks| && ReadsAhead(s.db, pc, now, n)
    ensures Legal(At(s, p, pc), Reads(p, now, n))
    ensures Exec(At(s, p, pc), Reads(p, now, n)) == At(s, p, PcAfter(s.db, pc, now, n))
    decreases n
  {
    if n > 0 {
      SoloStep(s, p, pc, now);
      SoloReads(s, p, NextPc(s.db, pc, now), now, n - 1);
      assert Reads(p, now, n)[1..] == Reads(p, now, n - 1);
    }
  }

  lemma {:induction false} ExecAppend(s: State, run: seq<Action>, a: Action)
    requires Legal(s, run) && Enabled(Exec(s, run), a)
    ensures Legal(s, run + [a]) && Exec(s, run + [a]) == Apply(Exec(s, run), a)
    decreases |run|
  {
    if run == [] {
      assert run + [a] == [a];
      assert Legal(Apply(s, a), []);
    } else {
      assert (run + [a])[1..] == run[1..] + [a];
      ExecAppend(Apply(s, run[0]), run[1..], a);
    }
  }

  /** The five statements up to the decision, for either protocol. */
  lemma FiveReads(db: Database, t: Task, now: int)
    requires t.b.runId in db.runs && db.identity.Some? && IdentityMatches(db.identity.value, t.b)
    ensures ReadsAhead(db, WaitRun(t), now, 5)
    ensures PcAfter(db, WaitRun(t), now, 5) ==
            if t.ClaimTask? then AfterClaimReads(t.b, db.runs[t.b.runId], now, LoadRows(db, t.b))
            else AfterRecordReads(t.b, t.permit, db.runs[t.b.runId], now, LoadRows(db, t.b))
  {
    var b := t.b;
    var pc1 := NextPc(db, WaitRun(t), now);
    var pc2 := NextPc(db, pc1, now);
    var pc3 := NextPc(db, pc2, now);
    var pc4 := NextPc(db, pc3, now);
    var pc5 := NextPc(db, pc4, now);
    assert pc4 == LoadEvents(t, db.runs[b.runId], now, SelectAttempts(db, b), SelectAuthorizations(db, b));
    assert ReadsAhead(db, pc5, now, 0) && ReadsAhead(db, pc4, now, 1) && ReadsAhead(db, pc3, now, 2);
    assert ReadsAhead(db, pc2, now, 3) && ReadsAhead(db, pc1, now, 4);
    assert PcAfter(db, pc5, now, 0) == pc5 == PcAfter(db, pc4, now, 1) == PcAfter(db, pc3, now, 2);
    assert PcAfter(db, pc2, now, 3) == pc5 == PcAfter(db, pc1, now, 4);
  }

  /** A permit the store hands out is one the machine hands out: same rows, same new permit. */
  lemma StoreClaimIsAMachineRun(s: State, p: nat, b: Binding, now: int)
    requires AllIdle(s) && p < |s.tasks| && ClaimTransaction(s.db, b, now, Acknowledged).answer.NewPermit?
    ensures var start, run := At(s, p, WaitRun(ClaimTask(b))), Reads(p, now, 5) + [CommitClaim(p, true)];
            && Enabled(s, StartClaim(p, b)) && Apply(s, StartClaim(p, b)) == start
            && Legal(start, run)
            && Exec(start, run).db == ClaimTransaction(s.db, b, now, Acknowledged).db
            && Exec(start, run).permits == s.permits + [Permit(b, now, true, false, None)]
            && AllIdle(Exec(start, run))
  {
    FiveReads(s.db, ClaimTask(b), now);
    SoloReads(s, p, WaitRun(ClaimTask(b)), now, 5);
    var end := At(s, p, WritingClaim(ClaimTask(b), now));
    assert Exec(At(s, p, WaitRun(ClaimTask(b))), Reads(p, now, 5)) == end;
    ExecAppend(At(s, p, WaitRun(ClaimTask(b))), Reads(p, now, 5), CommitClaim(p, true));
  }

  /** An ownership the store commits is one the machine commits. */
  lemma StoreRecordIsAMachineRun(s: State, p: nat, k: nat, now: int)
    requires AllIdle(s) && p < |s.tasks| && Enabled(s, StartRecord(p, k))
    requires var permit := s.permits[k];
             RecordTransaction(s.db, permit.binding, permit.receipt.value, permit.claimedAt, now, Acknowledged).db != s.db
    ensures var permit := s.permits[k];
            var start, run := At(s, p, WaitRun(RecordTask(permit.binding, k))), Reads(p, now, 5) + [CommitOwnership(p, true)];
            && Apply(s, StartRecord(p, k)) == start
            && Legal(start, run)
            && Exec(start, run).db ==
                 RecordTransaction(s.db, permit.binding, permit.receipt.value, permit.claimedAt, now, Acknowledged).db
            && Exec(start, run).accepted == s.accepted + [Acceptance(k, now)]
  {
    var permit := s.permits[k];
    var t := RecordTask(permit.binding, k);
    FiveReads(s.db, t, now);
    SoloReads(s, p, WaitRun(t), now, 5);
    var rows := LoadRows(s.db, permit.binding);
    SubmissionUnknownRow(rows, permit.binding, s.db.runs[permit.binding.runId]);
    var row := TheOnly(rows.attempts);
    assert row in rows.attempts && row in s.db.attempts;
    var end := At(s, p, WritingOwnership(t, now, row));
    assert Exec(At(s, p, WaitRun(t)), Reads(p, now, 5)) == end;
    assert CanCommitOwnership(end, p);
    ExecAppend(At(s, p, WaitRun(t)), Reads(p, now, 5), CommitOwnership(p, true));
  }

  // ---------- replays ----------

  /**
   After a committed record whose Run is RUNNING, presenting the same receipt again, with any clock and
   any session outcome, gives the same answer and writes nothing; a receipt for another task is refused
   and writes nothing.
   */
  lemma ReplayRightAfterRecord(db: Database, row: AttemptRow, b: Binding, receipt: Receipt, at: int,
                               claimedAt: int, again: Receipt, now: int, outcome: Outcome)
    requires var db' := WriteOwnership(db, row, b, receipt, at);
             Consistent(db') && Durable(db', b, claimedAt) && OwnRows(db', b, claimedAt)
    requires row.id == AttemptIdOf(b) && row.state == Running && row.runId == b.runId
    requires b.runId in db.runs && db.runs[b.runId] == Running
    requires CostIsStorable(b) && IsTaskId(receipt.taskId) && receipt.state.Known()
    ensures var db' := WriteOwnership(db, row, b, receipt, at);
            RecordTransaction(db', b, again, claimedAt, now, outcome) ==
              Committed(db', Answered(if again.taskId == receipt.taskId || receipt.state.TerminalFailure()
                                      then RecordAnswer(b, receipt, at) else Gate(Conflict)))
  {
    OwnedRowAnswer(db, row, b, receipt, at, claimedAt);
  }

  /** A claim whose ownership is recorded is never submission-unknown again. */
  lemma OwnedIsNotUnknown(db: Database, b: Binding, receipt: Receipt, at: int, runState: RunState)
    requires Consistent(db) && DurableOwnership(db, b, receipt, at)
    ensures Classify(LoadRows(db, b), b, runState) != Gate(SubmissionUnknown)
  {
    var rows := LoadRows(db, b);
    if Classify(rows, b, runState) == Gate(SubmissionUnknown) {
      SubmissionUnknownRow(rows, b, runState);
      var q := TheOnly(rows.attempts);
      assert q in rows.attempts && q in db.attempts && q.providerTaskId.None?;
      OwnershipIsNotRepeated(db, q, b, receipt, at);
      assert false;
    }
  }

  lemma ReplayAtOwnedClaim(db: Database, b: Binding, claimed: int, receipt: Receipt, at: int, again: Receipt,
                           claimedAt: int, now: int, outcome: Outcome)
    requires Consistent(db) && Durable(db, b, claimed) && DurableOwnership(db, b, receipt, at)
    ensures ClassifyCanary(db, b) !in {NoExisting, Gate(SubmissionUnknown), Gate(NotFound), Gate(LedgerMismatch)}
    ensures RecordTransaction(db, b, again, claimedAt, now, outcome) ==
              var c := ClassifyCanary(db, b);
              Committed(db, Answered(if c.Resume? && c.task.taskId != again.taskId then Gate(Conflict) else c))
  {
    assert NewClaimEvent(b, claimed) in db.events;
    ClaimedAnswer(db, b, claimed, db.runs[b.runId]);
    OwnedIsNotUnknown(db, b, receipt, at, db.runs[b.runId]);
  }

  /**
   In every state of every run after a record committed, presenting any receipt for that claim, with any
   claim time, clock and session outcome, writes nothing. The answer is the classification of the rows,
   which is never SUBMISSION_UNKNOWN or unclaimed, except that a receipt for another task gets CONFLICT
   where the rows resume the recorded one.
   */
  lemma ReplayedReceipt(s0: State, run: seq<Action>, i: nat, again: Receipt, claimedAt: int, now: int, outcome: Outcome)
    requires Initial(s0) && Legal(s0, run) && i < |Exec(s0, run).accepted|
    ensures var s := Exec(s0, run);
            && s.accepted[i].permit < |s.permits| && s.permits[s.accepted[i].permit].receipt.Some?
            && var permit := s.permits[s.accepted[i].permit];
               var c := ClassifyCanary(s.db, permit.binding);
               && c !in {Gate(SubmissionUnknown), Gate(NotFound), Gate(LedgerMismatch)}
               && (c.Resume? ==> c.task.taskId == permit.receipt.value.taskId && c.task.submittedAt == s.accepted[i].at)
               && RecordTransaction(s.db, permit.binding, again, claimedAt, now, outcome) ==
                    Committed(s.db, Answered(if c.Resume? && again.taskId != permit.receipt.value.taskId
                                             then Gate(Conflict) else c))
  {
    InitialInv(s0);
    RunKeepsInv(s0, run);
    var s := Exec(s0, run);
    var permit := s.permits[s.accepted[i].permit];
    var b, c := permit.binding, ClassifyCanary(s.db, permit.binding);
    ReplayAtOwnedClaim(s.db, b, s.claims[b], permit.receipt.value, s.accepted[i].at, again, claimedAt, now, outcome);
    if c.Resume? {
      AcceptedTaskIsTheResumedTask(s0, run, i, c.task);
    }
  }

  lemma NoExistingMeansDisjoint(s: State, b: Binding, runState: RunState)
    requires ClaimsDurable(s.db, s.claims) && Classify(LoadRows(s.db, b), b, runState).NoExisting?
    ensures forall c | c in s.claims :: KeysDisjoint(b, c)
  {
    NoExistingMeansEmpty(LoadRows(s.db, b), b, runState);
    EmptyGroupsEmptyEvents(SelectAttempts(s.db, b), SelectAuthorizations(s.db, b), SelectEvents(s.db, b));
    AuthorizationSelectionCoversNonce(s.db, b, s.claims);
    EmptyEventsCoverKeys(s, b);
  }

  lemma KeptKeysAreSelected(s: State, b: Binding, runState: RunState)
    requires ClaimsDurable(s.db, s.claims) && exists c | c in s.claims :: !KeysDisjoint(b, c)
    ensures !Classify(LoadRows(s.db, b), b, runState).NoExisting?
  {
    if Classify(LoadRows(s.db, b), b, runState).NoExisting? { NoExistingMeansDisjoint(s, b, runState); }
  }

  lemma ClaimedGetsNothing(db: Database, b: Binding, now: int, outcome: Outcome)
    requires b.runId in db.runs && !Classify(LoadRows(db, b), b, db.runs[b.runId]).NoExisting?
    ensures ClaimTransaction(db, b, now, outcome).db == db && !ClaimTransaction(db, b, now, outcome).answer.NewPermit?
  {}

  /** After a claim committed, a claim by any binding that shares a key gets no permit and writes nothing. */
  lemma SecondClaimIsRefused(s: State, b: Binding, now: int, outcome: Outcome)
    requires ClaimsDurable(s.db, s.claims) && exists c | c in s.claims :: !KeysDisjoint(b, c)
    ensures ClaimTransaction(s.db, b, now, outcome).db == s.db
    ensures !ClaimTransaction(s.db, b, now, outcome).answer.NewPermit?
  {
    if b.runId in s.db.runs {
      KeptKeysAreSelected(s, b, s.db.runs[b.runId]);
      ClaimedGetsNothing(s.db, b, now, outcome);
    }
  }
}
