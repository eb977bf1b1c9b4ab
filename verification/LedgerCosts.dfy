/** A claim whose reviewed cost its column rounded gets a permit and can never record its task. */
module LedgerCosts {
  import opened Wrappers
  import opened LedgerTables
  import opened LedgerSchema
  import opened LedgerClassify
  import opened LedgerMachine
  import opened LedgerSafety
  import opened LedgerTheorems
  import opened LedgerQuiet
  import opened LedgerOutcomes

  /** What a recording task has learned about the cost of its claim. */
  predicate CostPc(db: Database, pc: Pc)
  {
    && (pc.LoadEvents? && pc.task.RecordTask? ==> pc.authorizations <= db.authorizations)
    && (pc.WritingOwnership? ==> CostIsStorable(pc.task.b))
  }

  ghost predicate OwnedCostsStorable(permits: seq<Permit>, accepted: seq<Acceptance>)
  {
    forall i | 0 <= i < |accepted| ::
      accepted[i].permit < |permits| && CostIsStorable(permits[accepted[i].permit].binding)
  }

  ghost predicate CostInv(s: State)
  {
    && (forall p | 0 <= p < |s.tasks| :: CostPc(s.db, s.tasks[p]))
    && OwnedCostsStorable(s.permits, s.accepted)
  }

  /** A matching authorization row is the one the claim wrote, so its column holds the reviewed cost. */
  lemma MatchingCostIsStorable(db: Database, b: Binding, at: int, a: AuthorizationRow)
    requires Consistent(db) && Durable(db, b, at) && a in db.authorizations && AuthorizationMatches(a, b)
    ensures CostIsStorable(b)
  {
    assert AuthorizationsClash(a, NewAuthorization(b, at));
  }

  lemma UnknownAuthorizationMatches(rows: LedgerRows, b: Binding, runState: RunState)
    requires Classify(rows, b, runState) == Gate(SubmissionUnknown)
    ensures |rows.authorizations| == 1 && AuthorizationMatches(TheOnly(rows.authorizations), b)
  {
  }

  lemma RecordReadsKeepCostPc(s: State, pc: Pc, now: int)
    requires Consistent(s.db) && ClaimsDurable(s.db, s.claims) && PermitsInv(s.claims, s.permits)
    requires PcInv(s, pc) && CostPc(s.db, pc) && pc.LoadEvents? && pc.task.RecordTask?
    ensures CostPc(s.db, NextPc(s.db, pc, now))
  {
    var b := pc.task.b;
    var rows := GroupRows(pc.attempts, pc.authorizations, SelectEvents(s.db, b));
    if Classify(rows, b, pc.runState) == Gate(SubmissionUnknown) {
      UnknownAuthorizationMatches(rows, b, pc.runState);
      assert TheOnly(pc.authorizations) in pc.authorizations;
      assert b in s.claims;
      MatchingCostIsStorable(s.db, b, s.claims[b], TheOnly(pc.authorizations));
    }
  }

  lemma CostPcStep(s: State, p: nat, pc: Pc)
    requires CostInv(s) && p < |s.tasks| && CostPc(s.db, pc)
    ensures CostInv(s.(tasks := s.tasks[p := pc]))
  {
  }

  lemma CostProceedStep(s: State, p: nat, now: int)
    requires Inv(s) && CostInv(s) && p < |s.tasks| && InReads(s.tasks[p])
    ensures CostInv(s.(tasks := s.tasks[p := NextPc(s.db, s.tasks[p], now)]))
  {
    var pc := s.tasks[p];
    assert PcInv(s, pc) && CostPc(s.db, pc);
    if pc.LoadEvents? && pc.task.RecordTask? { RecordReadsKeepCostPc(s, pc, now); }
    CostPcStep(s, p, NextPc(s.db, pc, now));
  }

  lemma GrowingDatabaseKeepsCostPc(db: Database, db': Database, tasks: seq<Pc>)
    requires db.authorizations <= db'.authorizations && forall p | 0 <= p < |tasks| :: CostPc(db, tasks[p])
    ensures forall p | 0 <= p < |tasks| :: CostPc(db', tasks[p])
  {
    forall p | 0 <= p < |tasks| ensures CostPc(db', tasks[p]) { assert CostPc(db, tasks[p]); }
  }

  lemma CostClaimStep(s: State, p: nat, acknowledged: bool)
    requires CostInv(s) && CanCommitClaim(s, p)
    ensures CostInv(ClaimCommitted(s, p, acknowledged))
  {
    GrowingDatabaseKeepsCostPc(s.db, ClaimCommitted(s, p, acknowledged).db, s.tasks);
  }

  lemma OneMoreStorable(permits: seq<Permit>, accepted: seq<Acceptance>, k: nat, now: int)
    requires OwnedCostsStorable(permits, accepted) && k < |permits| && CostIsStorable(permits[k].binding)
    ensures OwnedCostsStorable(permits, accepted + [Acceptance(k, now)])
  {
  }

  lemma CostOwnershipStep(s: State, p: nat, acknowledged: bool)
    requires Inv(s) && CostInv(s) && CanCommitOwnership(s, p)
    ensures CostInv(OwnershipCommitted(s, p, acknowledged))
  {
    var s' := OwnershipCommitted(s, p, acknowledged);
    assert PermitIsIssued(s.permits, s.tasks[p].task) by { assert PcInv(s, s.tasks[p]); }
    assert CostPc(s.db, s.tasks[p]);
    OneMoreStorable(s.permits, s.accepted, s.tasks[p].task.permit, s.tasks[p].now);
    GrowingDatabaseKeepsCostPc(s.db, s'.db, s.tasks);
    forall q | 0 <= q < |s'.tasks| ensures CostPc(s'.db, s'.tasks[q]) { assert q != p ==> s'.tasks[q] == s.tasks[q]; }
  }

  lemma CostPermitStep(s: State, permits': seq<Permit>)
    requires CostInv(s) && |permits'| == |s.permits|
    requires forall i | 0 <= i < |s.permits| :: permits'[i].binding == s.permits[i].binding
    ensures CostInv(s.(permits := permits'))
  {
  }

  lemma CostOnePermitStep(s: State, k: nat, permit: Permit)
    requires CostInv(s) && k < |s.permits| && permit.binding == s.permits[k].binding
    ensures CostInv(s.(permits := s.permits[k := permit]))
  {
    CostPermitStep(s, s.permits[k := permit]);
  }

  lemma CostForeignStep(s: State, db: Database)
    requires CostInv(s) && TriggersAllow(s.db, db)
    ensures CostInv(s.(db := db))
  {
    GrowingDatabaseKeepsCostPc(s.db, db, s.tasks);
  }

  lemma CostCrashStep(s: State, gone: set<nat>, lost: set<nat>)
    requires CostInv(s)
    ensures CostInv(Apply(s, Crash(gone, lost)))
  {
    CostPermitStep(s, ClearPermits(s.permits, lost));
    var s' := Apply(s, Crash(gone, lost));
    forall p | 0 <= p < |s'.tasks| ensures CostPc(s'.db, s'.tasks[p]) { assert CostPc(s.db, s.tasks[p]); }
  }

  lemma CostTaskStep(s: State, a: Action)
    requires CostInv(s) && Enabled(s, a) && (a.StartClaim? || a.StartRecord? || a.RollBack? || a.Recheck?)
    ensures CostInv(Apply(s, a))
  {
    CostPcStep(s, a.p, Apply(s, a).tasks[a.p]);
  }

  lemma StepKeepsCostInv(s: State, a: Action)
    requires Inv(s) && CostInv(s) && Enabled(s, a)
    ensures CostInv(Apply(s, a))
  {
    match a
    case Proceed(p, now) => CostProceedStep(s, p, now);
    case CommitClaim(p, acknowledged) => CostClaimStep(s, p, acknowledged);
    case CommitOwnership(p, acknowledged) => CostOwnershipStep(s, p, acknowledged);
    case Consume(k) => CostOnePermitStep(s, k, s.permits[k].(consumed := true));
    case IssueReceipt(k, receipt) => CostOnePermitStep(s, k, s.permits[k].(receipt := Some(receipt)));
    case Crash(gone, lost) => CostCrashStep(s, gone, lost);
    case Foreign(db) => CostForeignStep(s, db);
    case _ => CostTaskStep(s, a);
  }

  lemma {:induction false} RunKeepsCostInv(s: State, run: seq<Action>)
    requires Inv(s) && CostInv(s) && Legal(s, run)
    ensures CostInv(Exec(s, run))
    decreases |run|
  {
    if run != [] {
      StepKeepsInv(s, run[0]);
      StepKeepsCostInv(s, run[0]);
      RunKeepsCostInv(Apply(s, run[0]), run[1..]);
    }
  }

  /**
   In every run, every ownership that was recorded belongs to a claim whose reviewed cost is a value of its
   column, and no task reaches the ownership write for any other claim.
   */
  lemma RoundedCostNeverOwns(s0: State, run: seq<Action>)
    requires Initial(s0) && Legal(s0, run)
    ensures var s := Exec(s0, run);
            && (forall i | 0 <= i < |s.accepted| ::
                  s.accepted[i].permit < |s.permits| && CostIsStorable(s.permits[s.accepted[i].permit].binding))
            && forall p | 0 <= p < |s.tasks| && s.tasks[p].WritingOwnership? :: CostIsStorable(s.tasks[p].task.b)
  {
    InitialInv(s0);
    RunKeepsCostInv(s0, run);
    var s := Exec(s0, run);
    forall p | 0 <= p < |s.tasks| && s.tasks[p].WritingOwnership? ensures CostIsStorable(s.tasks[p].task.b) {
      assert CostPc(s.db, s.tasks[p]);
    }
  }

  /**
   In every run the answer of a committing record is the classification of the rows it committed exactly when
   the claim's queries find only its own rows, and the Run is RUNNING or the provider reported a terminal
   failure; otherwise the classification is CORRUPTION.
   */
  lemma RecordAgreesInEveryRun(s0: State, run: seq<Action>, p: nat, acknowledged: bool)
    requires Initial(s0) && Legal(s0, run) && CanCommitOwnership(Exec(s0, run), p)
    ensures var s := Exec(s0, run);
            var WritingOwnership(t, now, row) := s.tasks[p];
            var receipt := s.permits[t.permit].receipt.value;
            var db' := OwnershipCommitted(s, p, acknowledged).db;
            && t.b in s.claims && t.b.runId in db'.runs
            && var agrees := RecordedOnly(db', t.b, row, receipt, now, s.claims[t.b])
                             && (db'.runs[t.b.runId] == Running || receipt.state.TerminalFailure());
               ClassifyCanary(db', t.b) == if agrees then RecordAnswer(t.b, receipt, now) else Gate(Corruption)
  {
    InitialInv(s0);
    RunKeepsInv(s0, run);
    RoundedCostNeverOwns(s0, run);
    RecordAgreesInAnyRun(Exec(s0, run), p, acknowledged);
  }

  lemma QuietRecordIsStorable(s0: State, run: seq<Action>, p: nat)
    requires Initial(s0) && Legal(s0, run) && QuietRun(s0, run) && CanCommitOwnership(Exec(s0, run), p)
    ensures QuietInv(Exec(s0, run)) && CostIsStorable(Exec(s0, run).tasks[p].task.b)
  {
    RoundedCostNeverOwns(s0, run);
    InitialQuietInv(s0);
    QuietRunKeepsInv(s0, run);
  }

  /** In a quiet run the Run and the provider state alone decide. */
  lemma RecordAgreesInQuietRuns(s0: State, run: seq<Action>, p: nat, acknowledged: bool)
    requires Initial(s0) && Legal(s0, run) && QuietRun(s0, run) && CanCommitOwnership(Exec(s0, run), p)
    ensures var s := Exec(s0, run);
            var WritingOwnership(t, now, row) := s.tasks[p];
            var receipt := s.permits[t.permit].receipt.value;
            var db' := OwnershipCommitted(s, p, acknowledged).db;
            && t.b.runId in db'.runs
            && (ClassifyCanary(db', t.b) == RecordAnswer(t.b, receipt, now)
                <==> db'.runs[t.b.runId] == Running || receipt.state.TerminalFailure())
  {
    QuietRecordIsStorable(s0, run, p);
    RecordAgreesWithClassification(Exec(s0, run), p, acknowledged);
  }
}
