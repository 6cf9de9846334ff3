/**
  Progress of the driver lifecycle (agent/driver/lifecycle.go): from every reachable resting state,
  a sensible plan on a healthy environment is carried through nine calls to a commit.  The same run,
  cut down between the release and the Finish of that commit, leaves a node that never recovers.
*/
module DriverProgress {
  import opened Common
  import opened DriverContract
  import opened DriverJournal
  import opened DriverReservation
  import opened DriverLifecycle
  import opened DriverInvariant
  import opened DriverSafety
  import opened DriverClosing
  import opened DriverCorrespondence
  import opened DriverRecovery
  import opened DriverReversal

  /** One plan, and what its driver and approver answer. */
  datatype Plan = Plan(
    ref: PlanRef, operation: Operation, before: Digest, after: Digest, approval: Approval, key: ReservationKey,
    receipt: ApplyReceipt, verification: Verification, at: nat)

  ghost predicate Sensible(plan: Plan) {
    && ValidRef(plan.ref) && plan.operation.id == plan.ref.operationId && ValidTarget(plan.operation.target)
    && ValidDigest(plan.before) && ValidDigest(plan.after)
    && ValidApproval(plan.approval) && Binds(plan.approval, RunAt(plan, 3))
    && ValidKey(plan.key) && plan.key.planId == plan.ref.planId && plan.key.planRevision == plan.ref.planRevision
    && ValidApplyReceipt(plan.receipt) && BoundTo(plan.receipt, RequestOf(RunAt(plan, 5)))
    && ValidVerification(plan.verification) && plan.verification.verified
    && plan.verification.expected == plan.receipt.appliedDigest
    && plan.at != 0
  }

  function Preview(plan: Plan): Simulation {
    Simulation(plan.operation.id, plan.operation.target, plan.before, plan.before, plan.after, true, true)
  }

  function TokenOf(plan: Plan): ReservationToken {
    ReservationToken(plan.key, ReservationHash(plan.key), plan.at)
  }

  /** What the lifecycle remembers after `k` calls. */
  function RunAt(plan: Plan, k: nat): Run {
    Run(plan.ref,
        if k >= 2 then plan.before else NoDigest,
        if k >= 3 then Some(Preview(plan)) else None,
        if k >= 3 then Some(plan.operation) else None,
        if k >= 4 then Some(plan.approval) else None,
        if k >= 5 then Some(TokenOf(plan)) else None,
        if k >= 6 then Some(plan.receipt) else None,
        if k >= 7 then Some(plan.verification) else None)
  }

  function StateAt(k: nat): State
    requires 1 <= k <= 9
  {
    [Begun, Captured, Simulated, Approved, Reserved, Applied, Verified, Recorded, Committed][k - 1]
  }

  function Close(plan: Plan, finish: Fault): Closing {
    Closing(plan.at, Errs, Healthy, Healthy, plan.at, finish)
  }

  function ActionAt(plan: Plan, k: nat): Action
    requires k < 9
  {
    match k
    case 0 => DoBegin(plan.ref, true, plan.at, Healthy)
    case 1 => DoCapture(true, Answers(plan.before))
    case 2 => DoSimulate(Some(plan.operation), Answers(Preview(plan)), plan.at, Healthy)
    case 3 => DoApprove(plan.approval, plan.at, Healthy)
    case 4 => DoReserve(plan.key, plan.at, Healthy, plan.at, Healthy)
    case 5 => DoApply(Answers(plan.before), plan.at, Healthy, Answers(plan.receipt), plan.at, Healthy)
    case 6 => DoVerify(Answers(plan.verification))
    case 7 => DoRecord(plan.at, Healthy, Healthy, Healthy)
    case _ => DoCommit(Close(plan, Healthy))
  }

  function CommitResult(plan: Plan): Digest {
    ReceiptHash(CommitLine(plan.receipt, ReasonApplied, plan.at))
  }

  /** The plan id is unbooked and above both floors, then booked, then released by the commit. */
  ghost predicate BookedAt(ledger: Ledger, plan: Plan, k: nat) {
    if k < 5 then
      && plan.ref.planId !in ledger.bookings
      && ledger.floor.policyRevision <= plan.key.policyRevision && ledger.floor.planRevision < plan.key.planRevision
    else
      && plan.ref.planId in ledger.bookings
      && ledger.bookings[plan.ref.planId] ==
           if k < 9 then Booking(TokenOf(plan), false, StepNone, NoDigest)
           else Booking(TokenOf(plan), true, StepCommit, CommitResult(plan))
  }

  ghost predicate At(sys: System, plan: Plan, k: nat)
    requires k <= 9
  {
    && Good(sys) && Matched(sys.memory, sys.journal) && BookedAt(sys.ledger, plan, k)
    && (if k == 0 then !sys.memory.Active() else sys.memory == Memory(StateAt(k), Some(RunAt(plan, k))))
    && (k == 0 || k == 9 ==> Open(sys.journal) == map[])
  }

  // ---------------------------------------------------------------- one write

  lemma WriteSucceeds(sys: System, record: Record)
    requires Durable(sys) && Objection(Open(sys.journal), record) == None && Open(sys.journal).Keys <= {record.ref}
    requires ValidRecord(record)
    ensures var written := WriteJournal(sys, record, Healthy);
      written.outcome.Done? && written.sys == sys.(journal := written.sys.journal) && Took(written.sys.journal, record)
  {
    hide Append, Open, TracedEntry, Objection, ValidRecord, Bounded, Took;
    RoomForOne(sys.journal, record);
    WriteMatched(sys, record, Healthy);
  }

  /** An advance of a live run is admissible and valid, whatever it records. */
  lemma AdvanceSucceeds(sys: System, run: Run, step: Step, ownership: Digest, digest: Digest, at: nat)
    requires Durable(sys) && Open(sys.journal).Keys == {run.ref} && Open(sys.journal)[run.ref].step.Rank() < step.Rank()
    requires ValidRef(run.ref) && (run.Target() != "" ==> ValidTarget(run.Target()))
    requires run.Token().key == NO_KEY || ValidKey(run.Token().key)
    requires at != 0 && !step.StepNone? && !step.Terminal()
    requires (ownership == NoDigest || ValidToken(ownership)) && (digest == NoDigest || ValidDigest(digest))
    ensures var record := run.JournalLine(KindAdvance, step, ownership, digest, at);
      var written := WriteJournal(sys, record, Healthy);
      written.outcome.Done? && written.sys == sys.(journal := written.sys.journal) && Took(written.sys.journal, record)
  {
    hide Durable, Open, WriteJournal, ValidRef, ValidKey, ValidTarget, Took;
    WriteSucceeds(sys, run.JournalLine(KindAdvance, step, ownership, digest, at));
  }

  // ---------------------------------------------------------------- the nine calls

  ghost predicate Advances(sys: System, plan: Plan, k: nat)
    requires k < 9
  {
    var turn := Perform(sys, ActionAt(plan, k));
    && turn.outcome.Done? && BookedAt(turn.sys.ledger, plan, k + 1)
    && turn.sys.memory == Memory(StateAt(k + 1), Some(RunAt(plan, k + 1)))
    && (k == 8 ==> Open(turn.sys.journal) == map[])
  }

  lemma BeginAdvances(sys: System, plan: Plan)
    requires Sensible(plan) && At(sys, plan, 0)
    ensures Advances(sys, plan, 0)
  {
    hide WriteJournal, Durable, Open, Took, ValidApproval, ValidApplyReceipt, ValidVerification, ValidKey, ValidTarget;
    BegunDurable(sys, plan.ref);
    WriteSucceeds(sys.Log(Began(plan.ref)),
                  NewRun(plan.ref).JournalLine(KindBegin, StepCapture, NoDigest, NoDigest, plan.at));
  }

  lemma CaptureAdvances(sys: System, plan: Plan)
    requires Sensible(plan) && At(sys, plan, 1)
    ensures Advances(sys, plan, 1)
  {
    hide Good, Matched, Open, ValidApproval, ValidApplyReceipt, ValidVerification, ValidKey, ValidTarget;
  }

  lemma SimulateAdvances(sys: System, plan: Plan)
    requires Sensible(plan) && At(sys, plan, 2)
    ensures Advances(sys, plan, 2)
  {
    hide Good, Durable, WriteJournal, Open, Took, ValidApproval, ValidApplyReceipt, ValidVerification, ValidKey, Script,
         Facts;
    LiveFacts(sys);
    var next := RunAt(plan, 3);
    var event := SimulatedPlan(plan.operation, plan.before, plan.after);
    LogKeeps(sys, event);
    MemoryIsNotDurable(sys.Log(event), Memory(Captured, Some(next)));
    AdvanceSucceeds(sys.Log(event).With(Captured, next), next, StepSimulate, NoDigest, plan.after, plan.at);
  }

  lemma ApproveAdvances(sys: System, plan: Plan)
    requires Sensible(plan) && At(sys, plan, 3)
    ensures Advances(sys, plan, 3)
  {
    hide Good, Durable, WriteJournal, Open, Took, ValidApplyReceipt, ValidVerification, ValidKey, ValidTarget, Script,
         Facts;
    LiveFacts(sys);
    AdvanceSucceeds(sys, RunAt(plan, 3), StepApprove, NoDigest, plan.approval.digest, plan.at);
  }

  lemma ReserveAdvances(sys: System, plan: Plan)
    requires Sensible(plan) && At(sys, plan, 4)
    ensures Advances(sys, plan, 4)
  {
    hide Good, Durable, WriteJournal, Open, Took, ValidApproval, ValidApplyReceipt, ValidVerification, Script, Facts,
         Extends, ValidLedger;
    LiveFacts(sys);
    ReserveExtends(sys.ledger, plan.key, plan.at);
    var (ledger, reply) := DriverReservation.Reserve(sys.ledger, plan.key, plan.at);
    LedgerKeeps(sys, ledger);
    LogKeeps(sys.(ledger := ledger), Granted(TokenOf(plan)));
    var granted, next := sys.(ledger := ledger).Log(Granted(TokenOf(plan))), RunAt(plan, 5);
    MemoryIsNotDurable(granted, Memory(Approved, Some(next)));
    AdvanceSucceeds(granted.With(Approved, next), next, StepReserve, NoDigest, TokenOf(plan).token, plan.at);
  }

  /** The APPLY record goes on file, and the driver call after it. */
  lemma ApplyRecorded(sys: System, plan: Plan)
    requires Sensible(plan) && At(sys, plan, 5)
    ensures var run := RunAt(plan, 5);
      var written := WriteJournal(sys.Log(HostUnchanged(plan.before)),
                                  run.JournalLine(KindAdvance, StepApply, NoDigest, plan.before, plan.at), Healthy);
      var called := written.sys.Log(CalledApply(RequestOf(run)));
      && written.outcome.Done? && written.sys.ledger == sys.ledger
      && Durable(called) && |Trail(called.log, called.self)| == 7
      && Open(called.journal).Keys == {plan.ref} && Open(called.journal)[plan.ref].step.StepApply?
  {
    hide Good, Durable, WriteJournal, Open, Took, ValidApproval, ValidVerification, ValidApplyReceipt, Script, Facts,
         Trail, BoundTo;
    LiveFacts(sys);
    var run := RunAt(plan, 5);
    LogKeeps(sys, HostUnchanged(plan.before));
    AdvanceSucceeds(sys.Log(HostUnchanged(plan.before)), run, StepApply, NoDigest, plan.before, plan.at);
    AppliedDurable(sys, plan.at, Healthy);
    var written := WriteJournal(sys.Log(HostUnchanged(plan.before)),
                                run.JournalLine(KindAdvance, StepApply, NoDigest, plan.before, plan.at), Healthy);
    TookApply(written.sys.journal, run, plan);
  }

  lemma ApplyAdvances(sys: System, plan: Plan)
    requires Sensible(plan) && At(sys, plan, 5)
    ensures Advances(sys, plan, 5)
  {
    hide Good, Matched, Durable, WriteJournal, Open, ValidApproval, ValidVerification, ValidKey, ValidTarget, Trail,
         JournalReceipt;
    var run := RunAt(plan, 5);
    ApplyRecorded(sys, plan);
    var written := WriteJournal(sys.Log(HostUnchanged(plan.before)),
                                run.JournalLine(KindAdvance, StepApply, NoDigest, plan.before, plan.at), Healthy);
    ReceiptAdvances(written.sys.Log(CalledApply(RequestOf(run))), plan);
  }

  lemma TookApply(journal: seq<Record>, run: Run, plan: Plan)
    requires Took(journal, run.JournalLine(KindAdvance, StepApply, NoDigest, plan.before, plan.at))
    ensures Open(journal).Keys == {run.ref} && Open(journal)[run.ref].step.StepApply?
  {
    hide Open;
  }

  lemma ReceiptAdvances(sys: System, plan: Plan)
    requires Sensible(plan) && Durable(sys) && |Trail(sys.log, sys.self)| == 7
    requires Open(sys.journal).Keys == {plan.ref} && Open(sys.journal)[plan.ref].step.StepApply?
    ensures var turn := JournalReceipt(sys, RunAt(plan, 5), plan.receipt, plan.at, Healthy);
      && turn.outcome.Done? && turn.sys.ledger == sys.ledger && turn.sys.memory == Memory(Applied, Some(RunAt(plan, 6)))
  {
    hide Durable, WriteJournal, Open, Took, ValidApproval, ValidVerification, Trail;
    var next, event := RunAt(plan, 6), AcceptedReceipt(plan.receipt);
    LogKeeps(sys, event);
    MemoryIsNotDurable(sys.Log(event), Memory(Reserved, Some(next)));
    AdvanceSucceeds(sys.Log(event).With(Reserved, next), next, StepVerify, plan.receipt.ownership,
                    plan.receipt.appliedDigest, plan.at);
  }

  lemma VerifyAdvances(sys: System, plan: Plan)
    requires Sensible(plan) && At(sys, plan, 6)
    ensures Advances(sys, plan, 6)
  {
    hide Good, Matched, Open, ValidApproval, ValidApplyReceipt, ValidKey, ValidTarget, BoundTo;
  }

  lemma RecordAdvances(sys: System, plan: Plan)
    requires Sensible(plan) && At(sys, plan, 7)
    ensures Advances(sys, plan, 7)
  {
    hide Good, Durable, WriteJournal, Open, Took, ValidApproval, Script, Facts;
    LiveFacts(sys);
    var run := RunAt(plan, 7);
    AdvanceSucceeds(sys, run, StepRecord, plan.receipt.ownership, plan.receipt.appliedDigest, plan.at);
    var written := WriteJournal(
      sys, run.JournalLine(KindAdvance, StepRecord, plan.receipt.ownership, plan.receipt.appliedDigest, plan.at),
      Healthy);
    ReceiptsMatched(written.sys, run, plan.verification, Healthy, Healthy);
    ReceiptsDone(written.sys, plan);
  }

  lemma ReceiptsDone(sys: System, plan: Plan)
    requires Sensible(plan)
    ensures WriteReceipts(sys, RunAt(plan, 7), plan.verification, Healthy, Healthy).outcome.Done?
  {
    hide ValidApproval, ValidKey, ValidIdentifier, WriteReceipt;
    var first, second := ApplyLine(plan.receipt), VerifyLine(plan.receipt, plan.verification);
    assert ValidReceipt(first) && ValidReceipt(second);
    ReceiptDone(sys, first, Healthy);
    ReceiptDone(WriteReceipt(sys, first, Healthy).sys, second, Healthy);
  }

  lemma CommitAdvances(sys: System, plan: Plan)
    requires Sensible(plan) && At(sys, plan, 8)
    ensures Advances(sys, plan, 8)
  {
    hide Good, Durable, Open, CommitRun, ValidApproval, ValidVerification, Script, Facts, ValidLedger, Extends;
    LiveFacts(sys);
    var run, closing := RunAt(plan, 8), Close(plan, Healthy);
    CommitRunDone(sys, run, ReasonApplied, closing);
    CommitRunMatched(sys, run, ReasonApplied, closing);
  }

  lemma CallAdvances(sys: System, plan: Plan, k: nat)
    requires k < 9 && Sensible(plan) && At(sys, plan, k)
    ensures var turn := Perform(sys, ActionAt(plan, k)); turn.outcome.Done? && At(turn.sys, plan, k + 1)
  {
    hide Good, Matched, Perform, Sensible, BookedAt, Open;
    match k {
      case 0 => BeginAdvances(sys, plan);
      case 1 => CaptureAdvances(sys, plan);
      case 2 => SimulateAdvances(sys, plan);
      case 3 => ApproveAdvances(sys, plan);
      case 4 => ReserveAdvances(sys, plan);
      case 5 => ApplyAdvances(sys, plan);
      case 6 => VerifyAdvances(sys, plan);
      case 7 => RecordAdvances(sys, plan);
      case _ => CommitAdvances(sys, plan);
    }
    PerformKeeps(sys, ActionAt(plan, k));
    PerformMatched(sys, ActionAt(plan, k));
  }

  // ---------------------------------------------------------------- the whole run

  ghost function Through(sys: System, plan: Plan, k: nat): System
    requires k <= 9
  {
    if k == 0 then sys else Perform(Through(sys, plan, k - 1), ActionAt(plan, k - 1)).sys
  }

  /** The plan has not been booked, and its revisions are above what the store has granted. */
  ghost predicate Admissible(sys: System, plan: Plan) {
    && !sys.memory.Active() && Open(sys.journal) == map[] && BookedAt(sys.ledger, plan, 0)
  }

  lemma {:induction false} RunReaches(sys: System, plan: Plan, k: nat)
    requires k <= 9 && Sensible(plan) && Good(sys) && Matched(sys.memory, sys.journal) && Admissible(sys, plan)
    ensures At(Through(sys, plan, k), plan, k)
    decreases k
  {
    hide Good, Matched, Perform, Sensible, BookedAt, Open;
    if k > 0 {
      RunReaches(sys, plan, k - 1);
      CallAdvances(Through(sys, plan, k - 1), plan, k - 1);
    }
  }

  /** A healthy run commits: it ends in COMMITTED with nothing in flight and its booking released as COMMIT. */
  lemma HealthyRunCommits(sys: System, plan: Plan)
    requires Sensible(plan) && Good(sys) && Matched(sys.memory, sys.journal) && Admissible(sys, plan)
    ensures var after := Through(sys, plan, 9);
      && after.memory.state.Committed? && Open(after.journal) == map[]
      && plan.ref.planId in after.ledger.bookings
      && after.ledger.bookings[plan.ref.planId] == Booking(TokenOf(plan), true, StepCommit, CommitResult(plan))
  {
    hide Good, Matched, Through, Sensible, Open;
    RunReaches(sys, plan, 9);
  }

  /** The same run, dead between the release and the Finish of its commit, leaves the node stuck. */
  lemma HealthyRunCanStick(sys: System, plan: Plan)
    requires Sensible(plan) && Good(sys) && Matched(sys.memory, sys.journal) && Admissible(sys, plan)
    ensures var after := Commit(Through(sys, plan, 8), Close(plan, DiesBefore)).sys;
      Good(after) && !after.memory.Active() && Stuck(after)
  {
    hide Good, Matched, Through, Sensible, Open, Commit, Stuck;
    RunReaches(sys, plan, 8);
    SensibleAt(plan);
    CrashInCommitSticks(Through(sys, plan, 8), Close(plan, DiesBefore));
  }

  /** The same run with its approval, or the finish of its commit, torn parts memory from journal. */
  lemma HealthyRunCanSplit(sys: System, plan: Plan)
    requires Sensible(plan) && Good(sys) && Matched(sys.memory, sys.journal) && Admissible(sys, plan)
    ensures Splits(Through(sys, plan, 3), DoApprove(plan.approval, plan.at, Tears))
    ensures Splits(Through(sys, plan, 8), DoCommit(Close(plan, Tears)))
  {
    hide Good, Matched, Through, Open, CommitClears, ValidApproval, ValidApplyReceipt, ValidVerification;
    RunReaches(sys, plan, 3);
    RunReaches(sys, plan, 8);
    CommitCleared(Through(sys, plan, 8), plan);
  }

  lemma CommitCleared(sys: System, plan: Plan)
    requires Sensible(plan) && At(sys, plan, 8)
    ensures CommitClears(sys.ledger, RunAt(plan, 8), ReasonApplied, Close(plan, Tears))
  {
    hide Good, Matched, Open, ValidApproval, ValidVerification, ValidIdentifier;
  }

  lemma SensibleAt(plan: Plan)
    requires Sensible(plan)
    ensures plan.at != 0
  {
  }

  // ---------------------------------------------------------------- one concrete run

  const EXAMPLE_REF := PlanRef("p", 1, "o")
  const EXAMPLE_KEY := ReservationKey("p", 1, 1, "n", "f")
  const EXAMPLE_TOKEN := OwnershipTokenFor(EXAMPLE_REF, "t", ReservationHash(EXAMPLE_KEY))
  const EXAMPLE := Plan(
    EXAMPLE_REF, Operation("o", "t"), HostHash(0), HostHash(1),
    Approval("p", 1, "o", "t", "a", ApprovalHash("p", 1, "o", "t", "a")), EXAMPLE_KEY,
    ApplyReceipt(EXAMPLE_REF, "t", EXAMPLE_TOKEN, HostHash(0), HostHash(1), ReasonApplied, 1, 1),
    Verification(EXAMPLE_TOKEN, HostHash(1), HostHash(1), true, true, 1), 1)
  const NEW_NODE := System(0, FRESH, [], Ledger(RevisionFloor(0, 0), map[]), [], [])

  lemma ShortNames()
    ensures ValidIdentifier("p") && ValidIdentifier("o") && ValidIdentifier("n") && ValidIdentifier("f")
        && ValidIdentifier("a")
    ensures ValidTarget("t")
  {
  }

  lemma ExampleIsSensible()
    ensures Sensible(EXAMPLE) && Good(NEW_NODE) && Matched(NEW_NODE.memory, NEW_NODE.journal)
        && Admissible(NEW_NODE, EXAMPLE)
  {
    hide ValidIdentifier, ValidTarget;
    ShortNames();
  }

  /** A new node and one plan reach both calls that can part memory from journal. */
  lemma NewNodeCanSplit()
    ensures Splits(Through(NEW_NODE, EXAMPLE, 3), DoApprove(EXAMPLE.approval, 1, Tears))
    ensures Splits(Through(NEW_NODE, EXAMPLE, 8), DoCommit(Close(EXAMPLE, Tears)))
  {
    hide Good, Matched, Through, Sensible, Open, Splits, Admissible;
    ExampleIsSensible();
    HealthyRunCanSplit(NEW_NODE, EXAMPLE);
  }

  const REFUSED_FINISH := Closing(1, Errs, Healthy, Healthy, 1, Refuses)
  const EXAMPLE_REVERT :=
    Closing(1, Answers(RollbackReceipt(EXAMPLE_REF, EXAMPLE_TOKEN, HostHash(0), ReasonRolledBack, 1)),
            Healthy, Healthy, 1, Healthy)

  /** A new node, one plan, one refused finish: the permitted rollback reverts the host under a COMMIT booking. */
  lemma NewNodeCanRevertCommitted()
    ensures var failed := Commit(Through(NEW_NODE, EXAMPLE, 8), REFUSED_FINISH).sys;
      var turn := Rollback(failed, EXAMPLE_REVERT);
      && failed.memory.Active() && SaysCommit(turn.sys.ledger, "p")
      && turn.outcome == Refused(ReservationRefused(ReservationConflict))
      && RollbackLine(EXAMPLE_REVERT.driver.value, ReasonRolledBack) in turn.sys.receipts
  {
    hide Good, Matched, Through, Sensible, Open, Commit, Rollback, Admissible, ValidIdentifier;
    ExampleIsSensible();
    ShortNames();
    RunReaches(NEW_NODE, EXAMPLE, 8);
    RevertedAgainstCommit(Through(NEW_NODE, EXAMPLE, 8), REFUSED_FINISH, EXAMPLE_REVERT);
  }

  /** A new node, one plan, one crash: the node is stuck, so no later call lets it recover or begin again. */
  lemma NewNodeCanStick()
    ensures Stuck(Commit(Through(NEW_NODE, EXAMPLE, 8), Close(EXAMPLE, DiesBefore)).sys)
  {
    hide Good, Matched, Through, Sensible, Open, Commit, Stuck, Admissible;
    ExampleIsSensible();
    HealthyRunCanStick(NEW_NODE, EXAMPLE);
  }
}
