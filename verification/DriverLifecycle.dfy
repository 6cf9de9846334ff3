/**
  The driver lifecycle as a transition system (agent/driver/lifecycle.go).

  A System is one Lifecycle (its memory), the journal it owns, and the stores it shares.  Every
  public method is a function of the system and of what the environment answers: driver replies,
  clock readings, and one Fault per durable write.  A fault may refuse the write, kill the process
  before or after the write takes effect, or let the write take effect and still report an error,
  which is what a file journal does when its directory sync fails after the rename
  (agent/driver/journal_file.go:292-295).

  `log` is a history variable: it records what crossed a boundary and no transition reads it.
*/
module DriverLifecycle {
  import opened Common
  import opened DriverContract
  import opened DriverJournal
  import opened DriverReservation

  // ---------------------------------------------------------------- environment

  datatype Reply<+T> = Answers(value: T) | UnknownOwnership | Errs | Dies

  // ---------------------------------------------------------------- state

  datatype State =
    | Idle | Begun | Captured | Simulated | Approved | Reserved | Applied | Verified | Recorded
    | Committed | RolledBack | Failed
  {
    predicate Terminal() {
      Idle? || Committed? || RolledBack?
    }
  }

  const NO_TOKEN := ReservationToken(NO_KEY, NoDigest, 0)
  const NO_REF := PlanRef("", 0, "")
  const NO_VERIFICATION := Verification(NoDigest, NoDigest, NoDigest, false, false, 0)
  const NO_RECEIPT := ApplyReceipt(NO_REF, "", NoDigest, NoDigest, NoDigest, DriverReason(false, ""), 0, 0)

  datatype Run = Run(
    ref: PlanRef, digest: Digest, simulation: Option<Simulation>, operation: Option<Operation>,
    approval: Option<Approval>,
    reservation: Option<ReservationToken>, receipt: Option<ApplyReceipt>, verification: Option<Verification>)
  {
    function Target(): string {
      if operation.Some? then operation.value.target else ""
    }

    function ApprovedTarget(): string {
      if approval.Some? then approval.value.target else ""
    }

    function Token(): ReservationToken {
      if reservation.Some? then reservation.value else NO_TOKEN
    }

    /** run.receipt; the receipt and run.applied are always set together. */
    function Receipt(): ApplyReceipt {
      if receipt.Some? then receipt.value else NO_RECEIPT
    }

    function Verification(): Verification {
      if verification.Some? then verification.value else NO_VERIFICATION
    }

    function JournalLine(kind: Kind, step: Step, ownership: Digest, digest: Digest, at: nat): Record {
      Record(CONTRACT_VERSION, kind, ref, step, ownership, digest, Target(), Token().key, at)
    }
  }

  function NewRun(ref: PlanRef): Run {
    Run(ref, NoDigest, None, None, None, None, None, None)
  }

  datatype Memory = Memory(state: State, run: Option<Run>)
  {
    predicate Active() {
      run.Some? && !state.Terminal()
    }
  }

  const FRESH := Memory(Idle, None)

  /** What crossed a boundary, in order.  Recovery's own verification is not part of a run's trail. */
  datatype Event =
    | Began(ref: PlanRef)
    | CapturedHost(digest: Digest)
    | SimulatedPlan(operation: Operation, before: Digest, after: Digest)
    | BoundApproval(approval: Approval)
    | Granted(token: ReservationToken)
    | HostUnchanged(digest: Digest)
    | CalledApply(request: ApplyRequest)
    | AcceptedReceipt(receipt: ApplyReceipt)
    | VerifiedHost(ownership: Digest, digest: Digest)
    | Reverified(ownership: Digest, digest: Digest)

  datatype Entry = Entry(node: nat, event: Event)

  datatype System = System(
    self: nat, memory: Memory, journal: seq<Record>, ledger: Ledger, receipts: seq<Receipt>, log: seq<Entry>)
  {
    function Log(event: Event): System {
      this.(log := log + [Entry(self, event)])
    }

    function Enter(state: State): System {
      this.(memory := memory.(state := state))
    }

    function With(state: State, run: Run): System {
      this.(memory := Memory(state, Some(run)))
    }

    /** The process is gone; a fresh Lifecycle opens over the same durable stores. */
    function Restart(): System {
      this.(memory := FRESH)
    }
  }

  datatype Error =
    | OutOfOrder | PlanActive | NoActivePlan | ApprovalMismatch | SimulationRejected | VerificationFailed
    | InvalidRequest | HostDrift | RecoveryPending | JournalCorrupt | DriverFailed | Unavailable | ReceiptInvalid
    | JournalRefused(journalError: JournalError)
    | ReservationRefused(reservationError: ReservationError)

  datatype Outcome = Done | Clean | Refused(error: Error) | Died

  datatype Turn = Turn(sys: System, outcome: Outcome)

  // ---------------------------------------------------------------- durable writes

  function Verdict(fault: Fault): Outcome {
    if Kills(fault) then Died else if fault.Healthy? then Done else Refused(Unavailable)
  }

  function WriteJournal(sys: System, record: Record, fault: Fault): Turn {
    match Append(sys.journal, record)
    case Ok(next) => Turn(if Lands(fault) then sys.(journal := next) else sys, Verdict(fault))
    case Err(error) =>
      Turn(sys, if Kills(fault) then Died else if fault.Refuses? then Refused(Unavailable)
           else Refused(JournalRefused(error)))
  }

  function WriteRelease(sys: System, token: ReservationToken, terminal: Step, result: Digest, fault: Fault): Turn {
    match Release(sys.ledger, token, terminal, result)
    case Ok(next) => Turn(if Lands(fault) then sys.(ledger := next) else sys, Verdict(fault))
    case Err(error) =>
      Turn(sys, if Kills(fault) then Died else if fault.Refuses? then Refused(Unavailable)
           else Refused(ReservationRefused(error)))
  }

  function WriteReceipt(sys: System, receipt: Receipt, fault: Fault): Turn {
    match AppendReceipt(sys.receipts, receipt)
    case Ok(next) => Turn(if Lands(fault) then sys.(receipts := next) else sys, Verdict(fault))
    case Err(_) =>
      Turn(sys, if Kills(fault) then Died else if fault.Refuses? then Refused(Unavailable) else Refused(ReceiptInvalid))
  }

  /** A step that ends a method: success enters `next`, an error enters `otherwise`, death restarts. */
  function Settle(turn: Turn, next: State, otherwise: State): Turn {
    match turn.outcome
    case Died => Turn(turn.sys.Restart(), Died)
    case Refused(error) => Turn(turn.sys.Enter(otherwise), turn.outcome)
    case _ => Turn(turn.sys.Enter(next), turn.outcome)
  }

  function Fail(sys: System, error: Error): Turn {
    Turn(sys.Enter(Failed), Refused(error))
  }

  /** lifecycle.require: the error of a step invoked in the wrong state, if any. */
  function Require(memory: Memory, expected: State): Option<Error> {
    if memory.run.None? then Some(NoActivePlan)
    else if memory.state != expected then Some(OutOfOrder)
    else None
  }

  // ---------------------------------------------------------------- the steps of a run

  function Begin(sys: System, ref: PlanRef, readable: bool, at: nat, fault: Fault): Turn {
    if !ValidRef(ref) then Turn(sys, Refused(InvalidRequest))
    else if sys.memory.Active() then Turn(sys, Refused(PlanActive))
    else if !readable then Turn(sys, Refused(Unavailable))
    else if Open(sys.journal) != map[] then Turn(sys, Refused(RecoveryPending))
    else JournalBegin(sys, NewRun(ref), at, fault)
  }

  function JournalBegin(sys: System, run: Run, at: nat, fault: Fault): Turn {
    var written := WriteJournal(sys.Log(Began(run.ref)),
                                run.JournalLine(KindBegin, StepCapture, NoDigest, NoDigest, at), fault);
    match written.outcome
    case Died => Turn(written.sys.Restart(), Died)
    case Refused(_) => written
    case _ => Turn(written.sys.With(Begun, run), Done)
  }

  /** `reply` answers with the digest of the captured snapshot; a snapshot that has none is an error. */
  function Capture(sys: System, scopeValid: bool, reply: Reply<Digest>): Turn {
    match Require(sys.memory, Begun)
    case Some(error) => Turn(sys, Refused(error))
    case None =>
      if !scopeValid then Turn(sys, Refused(InvalidRequest))
      else if reply.Dies? then Turn(sys.Restart(), Died)
      else if !reply.Answers? || !ValidDigest(reply.value) then Fail(sys, DriverFailed)
      else
        Turn(sys.Log(CapturedHost(reply.value)).With(Captured, sys.memory.run.value.(digest := reply.value)), Done)
  }

  predicate Fits(result: Simulation, operation: Operation, run: Run) {
    && ValidSimulation(result) && result.snapshotDigest == run.digest
    && result.target == operation.target && result.operationId == operation.id
  }

  function Simulate(sys: System, operation: Option<Operation>, reply: Reply<Simulation>, at: nat, fault: Fault): Turn {
    match Require(sys.memory, Captured)
    case Some(error) => Turn(sys, Refused(error))
    case None =>
      var run := sys.memory.run.value;
      if operation.None? || operation.value.id != run.ref.operationId || !ValidTarget(operation.value.target) then
        Turn(sys, Refused(InvalidRequest))
      else if reply.Dies? then Turn(sys.Restart(), Died)
      else if !reply.Answers? then Fail(sys, DriverFailed)
      else if !Fits(reply.value, operation.value, run) then Fail(sys, InvalidRequest)
      else if !reply.value.wouldSucceed then
        Turn(sys.With(Failed, Predicted(run, operation.value, reply.value)), Refused(SimulationRejected))
      else JournalSimulation(sys, run, operation.value, reply.value, at, fault)
  }

  function Predicted(run: Run, operation: Operation, result: Simulation): Run {
    run.(simulation := Some(result), operation := Some(operation))
  }

  /** The predicted after-digest is journalled so that recovery can verify an apply whose receipt was lost. */
  function JournalSimulation(sys: System, run: Run, operation: Operation, result: Simulation, at: nat,
                             fault: Fault): Turn {
    var next := Predicted(run, operation, result);
    var ready := sys.Log(SimulatedPlan(operation, result.snapshotDigest, result.afterDigest)).With(Captured, next);
    Settle(WriteJournal(ready, next.JournalLine(KindAdvance, StepSimulate, NoDigest, result.afterDigest, at), fault),
           Simulated, Failed)
  }

  predicate Binds(approval: Approval, run: Run) {
    && approval.planId == run.ref.planId && approval.planRevision == run.ref.planRevision
    && approval.operationId == run.ref.operationId && approval.target == run.Target()
  }

  function Approve(sys: System, approval: Approval, at: nat, fault: Fault): Turn {
    match Require(sys.memory, Simulated)
    case Some(error) => Turn(sys, Refused(error))
    case None =>
      var run := sys.memory.run.value;
      if !ValidApproval(approval) then Turn(sys, Refused(InvalidRequest))
      else if !Binds(approval, run) then Turn(sys, Refused(ApprovalMismatch))
      else JournalApproval(sys, run, approval, at, fault)
  }

  function JournalApproval(sys: System, run: Run, approval: Approval, at: nat, fault: Fault): Turn {
    var written := WriteJournal(sys, run.JournalLine(KindAdvance, StepApprove, NoDigest, approval.digest, at), fault);
    match written.outcome
    case Died => Turn(written.sys.Restart(), Died)
    case Refused(_) => written
    case _ => Turn(written.sys.Log(BoundApproval(approval)).With(Approved, run.(approval := Some(approval))), Done)
  }

  /** The store is written before the journal: a crash in between leaves a booking no record names. */
  function Reserve(sys: System, key: ReservationKey, now: nat, storeFault: Fault, at: nat, fault: Fault): Turn {
    match Require(sys.memory, Approved)
    case Some(error) => Turn(sys, Refused(error))
    case None =>
      var run := sys.memory.run.value;
      if !ValidKey(key) || key.planId != run.ref.planId || key.planRevision != run.ref.planRevision then
        Turn(sys, Refused(ReservationRefused(ReservationInvalid)))
      else if storeFault.Refuses? then Fail(sys, Unavailable)
      else if storeFault.DiesBefore? then Turn(sys.Restart(), Died)
      else StoreReservation(sys, run, key, now, storeFault, at, fault)
  }

  function StoreReservation(sys: System, run: Run, key: ReservationKey, now: nat, storeFault: Fault, at: nat,
                            fault: Fault): Turn {
    var (ledger, reply) := DriverReservation.Reserve(sys.ledger, key, now);
    var stored := sys.(ledger := ledger);
    var asked := if reply.Ok? && reply.value.Fresh? then stored.Log(Granted(reply.value.token)) else stored;
    if storeFault.DiesAfter? then Turn(asked.Restart(), Died)
    else if reply.Err? then Fail(asked, ReservationRefused(reply.error))
    else if storeFault.Tears? then Fail(asked, Unavailable)
    else if reply.value.Replayed? then Fail(asked, ReservationRefused(AlreadyReserved))
    else JournalReservation(asked, run, reply.value.token, at, fault)
  }

  function JournalReservation(sys: System, run: Run, token: ReservationToken, at: nat, fault: Fault): Turn {
    var next := run.(reservation := Some(token));
    Settle(WriteJournal(sys.With(Approved, next), next.JournalLine(KindAdvance, StepReserve, NoDigest, token.token, at),
                        fault),
           Reserved, Failed)
  }

  function RequestOf(run: Run): ApplyRequest {
    ApplyRequest(run.ref, run.ApprovedTarget(),
                 if run.operation.Some? then run.operation.value else Operation("", ""), run.Token())
  }

  predicate BoundTo(receipt: ApplyReceipt, request: ApplyRequest) {
    && receipt.ref == request.ref && receipt.target == request.target
    && receipt.ownership == OwnershipTokenFor(request.ref, request.target, request.reservation.token)
  }

  /** Re-captures, refuses on drift, journals APPLY, calls the driver, then journals VERIFY with the receipt. */
  function Apply(sys: System, capture: Reply<Digest>, at: nat, fault: Fault,
                 reply: Reply<ApplyReceipt>, at': nat, fault': Fault): Turn
  {
    match Require(sys.memory, Reserved)
    case Some(error) => Turn(sys, Refused(error))
    case None =>
      var run := sys.memory.run.value;
      if capture.Dies? then Turn(sys.Restart(), Died)
      else if !capture.Answers? || !ValidDigest(capture.value) then Fail(sys, DriverFailed)
      else if capture.value != run.digest then Fail(sys, HostDrift)
      else JournalApply(sys, run, at, fault, reply, at', fault')
  }

  function JournalApply(sys: System, run: Run, at: nat, fault: Fault, reply: Reply<ApplyReceipt>, at': nat,
                        fault': Fault): Turn {
    var written := WriteJournal(sys.Log(HostUnchanged(run.digest)),
                                run.JournalLine(KindAdvance, StepApply, NoDigest, run.digest, at), fault);
    if written.outcome.Done? then CallApply(written.sys, run, reply, at', fault') else Settle(written, Failed, Failed)
  }

  function CallApply(sys: System, run: Run, reply: Reply<ApplyReceipt>, at: nat, fault: Fault): Turn {
    var request := RequestOf(run);
    var called := sys.Log(CalledApply(request));
    if reply.Dies? then Turn(called.Restart(), Died)
    else if !reply.Answers? then Fail(called, DriverFailed)
    else if !ValidApplyReceipt(reply.value) || !BoundTo(reply.value, request) then Fail(called, InvalidRequest)
    else JournalReceipt(called, run, reply.value, at, fault)
  }

  function JournalReceipt(sys: System, run: Run, receipt: ApplyReceipt, at: nat, fault: Fault): Turn {
    var next := run.(receipt := Some(receipt));
    Settle(WriteJournal(sys.Log(AcceptedReceipt(receipt)).With(Reserved, next),
                        next.JournalLine(KindAdvance, StepVerify, receipt.ownership, receipt.appliedDigest, at), fault),
           Applied, Failed)
  }

  function Verify(sys: System, reply: Reply<Verification>): Turn {
    match Require(sys.memory, Applied)
    case Some(error) => Turn(sys, Refused(error))
    case None =>
      var run := sys.memory.run.value;
      if reply.Dies? then Turn(sys.Restart(), Died)
      else if !reply.Answers? then Fail(sys, DriverFailed)
      else if !ValidVerification(reply.value) then Fail(sys, InvalidRequest)
      else
        var next := run.(verification := Some(reply.value));
        if !reply.value.verified || reply.value.expected != run.Receipt().appliedDigest then
          Turn(sys.With(Failed, next), Refused(VerificationFailed))
        else
          Turn(sys.Log(VerifiedHost(run.Receipt().ownership, reply.value.expected)).With(Verified, next), Done)
  }

  /** The two receipts Record and recovery append, each under its own fault. */
  function WriteReceipts(sys: System, run: Run, verification: Verification, first: Fault, second: Fault): Turn {
    var applied := WriteReceipt(sys, ApplyLine(run.Receipt()), first);
    if applied.outcome.Done? then WriteReceipt(applied.sys, VerifyLine(run.Receipt(), verification), second)
        else applied
  }

  function RecordRun(sys: System, at: nat, fault: Fault, first: Fault, second: Fault): Turn {
    match Require(sys.memory, Verified)
    case Some(error) => Turn(sys, Refused(error))
    case None =>
      var run := sys.memory.run.value;
      var written := WriteJournal(
        sys, run.JournalLine(KindAdvance, StepRecord, run.Receipt().ownership, run.Receipt().appliedDigest, at), fault);
      if written.outcome.Done?
      then Settle(WriteReceipts(written.sys, run, run.Verification(), first, second), Recorded, Failed)
      else Settle(written, Recorded, Failed)
  }

  /** What the environment answers while a run is being closed. */
  datatype Closing = Closing(
    now: nat, driver: Reply<RollbackReceipt>, receiptFault: Fault, releaseFault: Fault, at: nat, finishFault: Fault)

  /** The shared commit: commit receipt, release as COMMIT with its digest, then Finish. */
  function CommitRun(sys: System, run: Run, reason: ReasonCode, closing: Closing): Turn {
    var line := CommitLine(run.Receipt(), reason, closing.now);
    if !ValidReceipt(line) then Turn(sys, Refused(ReceiptInvalid))
    else
      var received := WriteReceipt(sys, line, closing.receiptFault);
      if !received.outcome.Done? then received
      else
        var released := WriteRelease(received.sys, run.Token(), StepCommit, ReceiptHash(line), closing.releaseFault);
        if !released.outcome.Done? then released
        else
          WriteJournal(released.sys,
                       run.JournalLine(KindFinish, StepCommit, run.Receipt().ownership, run.Receipt().appliedDigest,
                                       closing.at),
                       closing.finishFault)
  }

  function Commit(sys: System, closing: Closing): Turn {
    match Require(sys.memory, Recorded)
    case Some(error) => Turn(sys, Refused(error))
    case None => Settle(CommitRun(sys, sys.memory.run.value, ReasonApplied, closing), Committed, Failed)
  }

  /** What rollback learns from the driver: the bytes it releases with and the digest it finishes with. */
  datatype Reverted = Reverted(sys: System, outcome: Outcome, result: Digest, restored: Digest)

  function RevertRun(sys: System, run: Run, reason: ReasonCode, closing: Closing): Reverted {
    if run.receipt.None? then Reverted(sys, Done, NoDigest, NoDigest)
    else
      match closing.driver
      case Dies => Reverted(sys, Died, NoDigest, NoDigest)
      case Errs => Reverted(sys, Refused(DriverFailed), NoDigest, NoDigest)
      case UnknownOwnership => Reverted(sys, Done, NoDigest, NoDigest)
      case Answers(receipt) =>
        var line := RollbackLine(receipt, reason);
        if !ValidRollbackReceipt(receipt) || !ValidReceipt(line)
            then Reverted(sys, Refused(ReceiptInvalid), NoDigest, NoDigest)
        else
          var received := WriteReceipt(sys, line, closing.receiptFault);
          Reverted(received.sys, received.outcome, ReceiptHash(line), receipt.restored)
  }

  /** The shared rollback: driver revert if applied, release as ROLLBACK if reserved, then Finish. */
  function RollbackRun(sys: System, run: Run, reason: ReasonCode, closing: Closing): Turn {
    var reverted := RevertRun(sys, run, reason, closing);
    if !reverted.outcome.Done? then Turn(reverted.sys, reverted.outcome)
    else
      var released :=
        if run.reservation.None? then Turn(reverted.sys, Done)
        else WriteRelease(reverted.sys, run.Token(), StepRollback, reverted.result, closing.releaseFault);
      if !released.outcome.Done? then released
      else
        WriteJournal(released.sys,
                     run.JournalLine(KindFinish, StepRollback, run.Receipt().ownership, reverted.restored, closing.at),
                     closing.finishFault)
  }

  function Rollback(sys: System, closing: Closing): Turn {
    if sys.memory.run.None? then Turn(sys, Refused(NoActivePlan))
    else if sys.memory.state.Terminal() then Turn(sys, Refused(OutOfOrder))
    else Settle(RollbackRun(sys, sys.memory.run.value, ReasonRolledBack, closing), RolledBack, Failed)
  }

  // ---------------------------------------------------------------- recovery

  /** The digest of the last record of `ref` at `step`, or `otherwise`: the scan loop of recoverEntry. */
  function LastDigest(records: seq<Record>, ref: PlanRef, step: Step, otherwise: Digest): Digest {
    if records == [] then otherwise
    else if Last(records).ref == ref && Last(records).step == step then Last(records).digest
    else LastDigest(Init(records), ref, step, otherwise)
  }

  function ExpectedDigest(records: seq<Record>, entry: Record): Digest {
    if entry.step.StepApply? then LastDigest(records, entry.ref, StepSimulate, entry.digest) else entry.digest
  }

  function BeforeDigest(records: seq<Record>, entry: Record): Digest {
    if entry.step.StepApply? then entry.digest else LastDigest(records, entry.ref, StepApply, entry.digest)
  }

  /** The run recovery rebuilds from one journal record. */
  function Rebuilt(entry: Record): Run {
    Run(entry.ref, NoDigest, None,
        if entry.target != "" then Some(Operation(entry.ref.operationId, entry.target)) else None, None,
        if entry.reservation != NO_KEY
        then Some(ReservationToken(entry.reservation, ReservationHash(entry.reservation), entry.at)) else None,
        None, None)
  }

  function RederivedToken(entry: Record): Digest {
    OwnershipTokenFor(entry.ref, entry.target, ReservationHash(entry.reservation))
  }

  function RebuiltReceipt(records: seq<Record>, entry: Record): ApplyReceipt {
    ApplyReceipt(entry.ref, entry.target, RederivedToken(entry), BeforeDigest(records, entry),
                 ExpectedDigest(records, entry),
                 ReasonApplied, entry.at, entry.at)
  }

  datatype Rescue = Rescue(verify: Reply<Verification>, first: Fault, second: Fault, closing: Closing)

  predicate Early(step: Step) {
    step.StepCapture? || step.StepSimulate? || step.StepApprove? || step.StepReserve?
  }

  /** Whether the driver confirms the host against the digest recovery expects. */
  predicate Confirms(records: seq<Record>, entry: Record, rescue: Rescue) {
    && ValidApplyReceipt(RebuiltReceipt(records, entry))
    && rescue.verify.Answers? && ValidVerification(rescue.verify.value) && rescue.verify.value.verified
    && rescue.verify.value.expected == ExpectedDigest(records, entry)
  }

  function RecoverEntry(sys: System, entry: Record, records: seq<Record>, rescue: Rescue): Turn {
    var run := Rebuilt(entry);
    if entry.reservation != NO_KEY && !ValidKey(entry.reservation) then
      Turn(sys, Refused(ReservationRefused(ReservationInvalid)))
    else if Early(entry.step) then RollbackRun(sys, run, ReasonRecoveryRollback, rescue.closing)
    else if run.reservation.None? || entry.target == "" then Turn(sys, Refused(JournalCorrupt))
    else
      var receipt := RebuiltReceipt(records, entry);
      var applied := run.(receipt := Some(receipt));
      if ValidApplyReceipt(receipt) && rescue.verify.Dies? then Turn(sys, Died)
      else if ValidApplyReceipt(receipt) && rescue.verify.Errs? then Turn(sys, Refused(DriverFailed))
      else if Confirms(records, entry, rescue) then
        var lined := WriteReceipts(sys.Log(Reverified(receipt.ownership, receipt.appliedDigest)), applied,
                                   rescue.verify.value,
                                   rescue.first, rescue.second);
        if !lined.outcome.Done? then lined
        else CommitRun(lined.sys, applied, ReasonRecoveryCommit, rescue.closing)
      else RollbackRun(sys, applied, ReasonRecoveryRollback, rescue.closing)
  }

  /** The loop over the in-flight entries; an environment that stops answering is a death. */
  function RecoverEntries(sys: System, entries: seq<Record>, records: seq<Record>, rescues: seq<Rescue>): Turn
    decreases |entries|
  {
    if entries == [] then Turn(sys, Done)
    else if rescues == [] then Turn(sys, Died)
    else
      var turn := RecoverEntry(sys, entries[0], records, rescues[0]);
      if turn.outcome.Done? then RecoverEntries(turn.sys, entries[1..], records, rescues[1..]) else turn
  }

  datatype RecoverEnv = RecoverEnv(readable: bool, driver: Reply<()>, reportAt: nat, rescues: seq<Rescue>)

  ghost function Recover(sys: System, env: RecoverEnv): Turn {
    if sys.memory.Active() then Turn(sys, Refused(PlanActive))
    else if !env.readable then Turn(sys, Refused(Unavailable))
    else if Open(sys.journal) == map[] then Turn(sys, Clean)
    else if env.driver.Dies? then Turn(sys.Restart(), Died)
    else if !env.driver.Answers? then Turn(sys, Refused(DriverFailed))
    else
      var turn := RecoverEntries(sys, InFlight(Open(sys.journal)), sys.journal, env.rescues);
      if turn.outcome.Died? then Turn(turn.sys.Restart(), Died)
      else if turn.outcome.Done? && env.reportAt == 0 then Turn(turn.sys, Refused(InvalidRequest))
      else turn
  }

  // ---------------------------------------------------------------- every call a Lifecycle offers

  datatype Action =
    | DoBegin(ref: PlanRef, readable: bool, at: nat, fault: Fault)
    | DoCapture(scopeValid: bool, capture: Reply<Digest>)
    | DoSimulate(operation: Option<Operation>, simulation: Reply<Simulation>, at: nat, fault: Fault)
    | DoApprove(approval: Approval, at: nat, fault: Fault)
    | DoReserve(key: ReservationKey, now: nat, storeFault: Fault, at: nat, fault: Fault)
    | DoApply(capture: Reply<Digest>, at: nat, fault: Fault, receipt: Reply<ApplyReceipt>, at': nat, fault': Fault)
    | DoVerify(verification: Reply<Verification>)
    | DoRecord(at: nat, fault: Fault, first: Fault, second: Fault)
    | DoCommit(closing: Closing)
    | DoRollback(closing: Closing)
    | DoRecover(env: RecoverEnv)
    | DoRestart

  ghost function Perform(sys: System, action: Action): Turn {
    match action
    case DoBegin(ref, readable, at, fault) => Begin(sys, ref, readable, at, fault)
    case DoCapture(scopeValid, capture) => Capture(sys, scopeValid, capture)
    case DoSimulate(operation, simulation, at, fault) => Simulate(sys, operation, simulation, at, fault)
    case DoApprove(approval, at, fault) => Approve(sys, approval, at, fault)
    case DoReserve(key, now, storeFault, at, fault) => Reserve(sys, key, now, storeFault, at, fault)
    case DoApply(capture, at, fault, receipt, at', fault') => Apply(sys, capture, at, fault, receipt, at', fault')
    case DoVerify(verification) => Verify(sys, verification)
    case DoRecord(at, fault, first, second) => RecordRun(sys, at, fault, first, second)
    case DoCommit(closing) => Commit(sys, closing)
    case DoRollback(closing) => Rollback(sys, closing)
    case DoRecover(env) => Recover(sys, env)
    case DoRestart => Turn(sys.Restart(), Died)
  }
}
