/**
  The Lifecycle object itself (agent/driver/lifecycle.go:223-838): a state and a run that its
  methods update in place, over a journal, a reservation store and a receipt store it writes to.
  Every method is proved to do what the transition system says, write by write.

  A process that dies leaves a fresh Lifecycle over the same stores, so a method that reports Died
  has reset `state` and `run`.
*/
module DriverObject {
  import opened Common
  import opened DriverContract
  import opened DriverJournal
  import opened DriverReservation
  import opened DriverLifecycle

  class Lifecycle {
    const self: nat
    const journal: JournalState
    const reservations: ReservationStore
    const receipts: ReceiptStore
    var state: State
    var run: Option<Run>
    ghost var log: seq<Entry>

    ghost function Contents(): System
      reads this, journal, reservations, receipts
    {
      System(self, Memory(state, run), journal.records, reservations.Contents(), receipts.receipts, log)
    }

    constructor (self: nat, journal: JournalState, reservations: ReservationStore, receipts: ReceiptStore)
      ensures this.journal == journal && this.reservations == reservations && this.receipts == receipts
      ensures Contents() == System(self, FRESH, journal.records, reservations.Contents(), receipts.receipts, [])
    {
      this.self, this.journal, this.reservations, this.receipts := self, journal, reservations, receipts;
      state, run, log := Idle, None, [];
    }

    // ---------------------------------------------------------------- durable writes

    method WriteRecord(record: Record, fault: Fault) returns (outcome: Outcome)
      modifies journal
      ensures Turn(Contents(), outcome) == WriteJournal(old(Contents()), record, fault)
    {
      if fault.DiesBefore? {
        return Died;
      }
      if fault.Refuses? {
        return Refused(Unavailable);
      }
      var reply := journal.AppendRecord(record);
      if fault.DiesAfter? {
        return Died;
      }
      if reply.Err? {
        return Refused(JournalRefused(reply.error));
      }
      outcome := if fault.Tears? then Refused(Unavailable) else Done;
    }

    method WriteEnding(token: ReservationToken, terminal: Step, result: Digest, fault: Fault) returns (outcome: Outcome)
      modifies reservations
      ensures Turn(Contents(), outcome) == WriteRelease(old(Contents()), token, terminal, result, fault)
    {
      if fault.DiesBefore? {
        return Died;
      }
      if fault.Refuses? {
        return Refused(Unavailable);
      }
      var reply := reservations.ReleaseToken(token, terminal, result);
      if fault.DiesAfter? {
        return Died;
      }
      if reply.Err? {
        return Refused(ReservationRefused(reply.error));
      }
      outcome := if fault.Tears? then Refused(Unavailable) else Done;
    }

    method WriteLine(receipt: Receipt, fault: Fault) returns (outcome: Outcome)
      modifies receipts
      ensures Turn(Contents(), outcome) == WriteReceipt(old(Contents()), receipt, fault)
    {
      if fault.DiesBefore? {
        return Died;
      }
      if fault.Refuses? {
        return Refused(Unavailable);
      }
      var reply := receipts.AppendLine(receipt);
      if fault.DiesAfter? {
        return Died;
      }
      if reply.Err? {
        return Refused(ReceiptInvalid);
      }
      outcome := if fault.Tears? then Refused(Unavailable) else Done;
    }

    method Die() returns (outcome: Outcome)
      modifies this
      ensures Turn(Contents(), outcome) == Turn(old(Contents()).Restart(), Died)
    {
      state, run := Idle, None;
      outcome := Died;
    }

    method FailWith(error: Error) returns (outcome: Outcome)
      modifies this
      ensures Turn(Contents(), outcome) == Fail(old(Contents()), error)
    {
      state := Failed;
      outcome := Refused(error);
    }

    /** The common tail of a step: a death, a failure, or the next state. */
    method Conclude(reached: Outcome, next: State) returns (outcome: Outcome)
      modifies this
      ensures Turn(Contents(), outcome) == Settle(Turn(old(Contents()), reached), next, Failed)
    {
      if reached.Died? {
        outcome := Die();
      } else if reached.Refused? {
        state := Failed;
        outcome := reached;
      } else {
        state := next;
        outcome := reached;
      }
    }

    method RequireState(expected: State) returns (error: Option<Error>)
      ensures error == Require(Memory(state, run), expected)
    {
      if run.None? {
        return Some(NoActivePlan);
      }
      if state != expected {
        return Some(OutOfOrder);
      }
      error := None;
    }

    // ---------------------------------------------------------------- the steps of a run

    method BeginPlan(ref: PlanRef, readable: bool, at: nat, fault: Fault) returns (outcome: Outcome)
      modifies this, journal
      ensures Turn(Contents(), outcome) == Begin(old(Contents()), ref, readable, at, fault)
    {
      if !ValidRef(ref) {
        return Refused(InvalidRequest);
      }
      if run.Some? && !state.Terminal() {
        return Refused(PlanActive);
      }
      if !readable {
        return Refused(Unavailable);
      }
      var open := journal.OpenEntries();
      if open != map[] {
        return Refused(RecoveryPending);
      }
      var next := NewRun(ref);
      log := log + [Entry(self, Began(ref))];
      var written := WriteRecord(next.JournalLine(KindBegin, StepCapture, NoDigest, NoDigest, at), fault);
      if written.Died? {
        outcome := Die();
      } else if written.Refused? {
        outcome := written;
      } else {
        run, state, outcome := Some(next), Begun, Done;
      }
    }

    method CaptureHost(scopeValid: bool, reply: Reply<Digest>) returns (outcome: Outcome)
      modifies this
      ensures Turn(Contents(), outcome) == Capture(old(Contents()), scopeValid, reply)
    {
      var error := RequireState(Begun);
      if error.Some? {
        return Refused(error.value);
      }
      if !scopeValid {
        return Refused(InvalidRequest);
      }
      if reply.Dies? {
        outcome := Die();
      } else if !reply.Answers? || !ValidDigest(reply.value) {
        outcome := FailWith(DriverFailed);
      } else {
        log := log + [Entry(self, CapturedHost(reply.value))];
        run, state, outcome := Some(run.value.(digest := reply.value)), Captured, Done;
      }
    }

    method SimulateOperation(operation: Option<Operation>, reply: Reply<Simulation>, at: nat,
                             fault: Fault) returns (outcome: Outcome)
      modifies this, journal
      ensures Turn(Contents(), outcome) == Simulate(old(Contents()), operation, reply, at, fault)
    {
      var error := RequireState(Captured);
      if error.Some? {
        return Refused(error.value);
      }
      if operation.None? || operation.value.id != run.value.ref.operationId || !ValidTarget(operation.value.target) {
        return Refused(InvalidRequest);
      }
      if reply.Dies? {
        outcome := Die();
        return;
      }
      if !reply.Answers? {
        outcome := FailWith(DriverFailed);
        return;
      }
      var result := reply.value;
      if !Fits(result, operation.value, run.value) {
        outcome := FailWith(InvalidRequest);
        return;
      }
      run := Some(run.value.(simulation := Some(result), operation := operation));
      if !result.wouldSucceed {
        outcome := FailWith(SimulationRejected);
        return;
      }
      log := log + [Entry(self, SimulatedPlan(operation.value, result.snapshotDigest, result.afterDigest))];
      var written := WriteRecord(run.value.JournalLine(KindAdvance, StepSimulate, NoDigest, result.afterDigest, at),
                                 fault);
      outcome := Conclude(written, Simulated);
    }

    method BindApproval(approval: Approval, at: nat, fault: Fault) returns (outcome: Outcome)
      modifies this, journal
      ensures Turn(Contents(), outcome) == Approve(old(Contents()), approval, at, fault)
    {
      var error := RequireState(Simulated);
      if error.Some? {
        return Refused(error.value);
      }
      if !ValidApproval(approval) {
        return Refused(InvalidRequest);
      }
      if !Binds(approval, run.value) {
        return Refused(ApprovalMismatch);
      }
      var written := WriteRecord(run.value.JournalLine(KindAdvance, StepApprove, NoDigest, approval.digest, at), fault);
      if written.Died? {
        outcome := Die();
      } else if written.Refused? {
        outcome := written;
      } else {
        log := log + [Entry(self, BoundApproval(approval))];
        run, state, outcome := Some(run.value.(approval := Some(approval))), Approved, Done;
      }
    }

    method ReservePlan(key: ReservationKey, now: nat, storeFault: Fault, at: nat,
                       fault: Fault) returns (outcome: Outcome)
      modifies this, journal, reservations
      ensures Turn(Contents(), outcome) == DriverLifecycle.Reserve(old(Contents()), key, now, storeFault, at, fault)
    {
      hide WriteJournal, DriverReservation.Reserve, ValidKey;
      var error := RequireState(Approved);
      if error.Some? {
        return Refused(error.value);
      }
      if !ValidKey(key) || key.planId != run.value.ref.planId || key.planRevision != run.value.ref.planRevision {
        return Refused(ReservationRefused(ReservationInvalid));
      }
      if storeFault.Refuses? {
        outcome := FailWith(Unavailable);
        return;
      }
      if storeFault.DiesBefore? {
        outcome := Die();
        return;
      }
      var reply := reservations.ReserveKey(key, now);
      if reply.Ok? && reply.value.Fresh? {
        log := log + [Entry(self, Granted(reply.value.token))];
      }
      if storeFault.DiesAfter? {
        outcome := Die();
      } else if reply.Err? {
        outcome := FailWith(ReservationRefused(reply.error));
      } else if storeFault.Tears? {
        outcome := FailWith(Unavailable);
      } else if reply.value.Replayed? {
        outcome := FailWith(ReservationRefused(AlreadyReserved));
      } else {
        run := Some(run.value.(reservation := Some(reply.value.token)));
        var written := WriteRecord(
          run.value.JournalLine(KindAdvance, StepReserve, NoDigest, reply.value.token.token, at), fault);
        outcome := Conclude(written, Reserved);
      }
    }

    method ApplyPlan(capture: Reply<Digest>, at: nat, fault: Fault, reply: Reply<ApplyReceipt>, at': nat, fault': Fault)
      returns (outcome: Outcome)
      modifies this, journal
      ensures Turn(Contents(), outcome) == Apply(old(Contents()), capture, at, fault, reply, at', fault')
    {
      hide JournalApply;
      var error := RequireState(Reserved);
      if error.Some? {
        return Refused(error.value);
      }
      if capture.Dies? {
        outcome := Die();
        return;
      }
      if !capture.Answers? || !ValidDigest(capture.value) {
        outcome := FailWith(DriverFailed);
        return;
      }
      if capture.value != run.value.digest {
        outcome := FailWith(HostDrift);
        return;
      }
      outcome := ApplyUnchanged(at, fault, reply, at', fault');
    }

    /** The host is as captured: journal APPLY, then cross the driver boundary. */
    method ApplyUnchanged(at: nat, fault: Fault, reply: Reply<ApplyReceipt>, at': nat,
                          fault': Fault) returns (outcome: Outcome)
      requires run.Some? && state.Reserved?
      modifies this, journal
      ensures Turn(Contents(), outcome) == JournalApply(old(Contents()), old(run.value), at, fault, reply, at', fault')
    {
      hide CallApply, WriteJournal;
      log := log + [Entry(self, HostUnchanged(run.value.digest))];
      var written := WriteRecord(run.value.JournalLine(KindAdvance, StepApply, NoDigest, run.value.digest, at), fault);
      if written.Done? {
        outcome := CallDriver(reply, at', fault');
      } else {
        outcome := Conclude(written, Failed);
      }
    }

    /** The call into the driver and the journalled receipt. */
    method CallDriver(reply: Reply<ApplyReceipt>, at: nat, fault: Fault) returns (outcome: Outcome)
      requires run.Some? && state.Reserved?
      modifies this, journal
      ensures Turn(Contents(), outcome) == CallApply(old(Contents()), old(run.value), reply, at, fault)
    {
      var request := RequestOf(run.value);
      log := log + [Entry(self, CalledApply(request))];
      if reply.Dies? {
        outcome := Die();
      } else if !reply.Answers? {
        outcome := FailWith(DriverFailed);
      } else if !ValidApplyReceipt(reply.value) || !BoundTo(reply.value, request) {
        outcome := FailWith(InvalidRequest);
      } else {
        var receipt := reply.value;
        log := log + [Entry(self, AcceptedReceipt(receipt))];
        run := Some(run.value.(receipt := Some(receipt)));
        var written := WriteRecord(
          run.value.JournalLine(KindAdvance, StepVerify, receipt.ownership, receipt.appliedDigest, at), fault);
        outcome := Conclude(written, Applied);
      }
    }

    method VerifyHost(reply: Reply<Verification>) returns (outcome: Outcome)
      modifies this
      ensures Turn(Contents(), outcome) == Verify(old(Contents()), reply)
    {
      var error := RequireState(Applied);
      if error.Some? {
        return Refused(error.value);
      }
      if reply.Dies? {
        outcome := Die();
      } else if !reply.Answers? {
        outcome := FailWith(DriverFailed);
      } else if !ValidVerification(reply.value) {
        outcome := FailWith(InvalidRequest);
      } else {
        run := Some(run.value.(verification := Some(reply.value)));
        if !reply.value.verified || reply.value.expected != run.value.Receipt().appliedDigest {
          outcome := FailWith(VerificationFailed);
        } else {
          log := log + [Entry(self, VerifiedHost(run.value.Receipt().ownership, reply.value.expected))];
          state, outcome := Verified, Done;
        }
      }
    }

    method WriteLines(run: Run, verification: Verification, first: Fault, second: Fault) returns (outcome: Outcome)
      modifies receipts
      ensures Turn(Contents(), outcome) == WriteReceipts(old(Contents()), run, verification, first, second)
    {
      outcome := WriteLine(ApplyLine(run.Receipt()), first);
      if outcome.Done? {
        outcome := WriteLine(VerifyLine(run.Receipt(), verification), second);
      }
    }

    method RecordReceipts(at: nat, fault: Fault, first: Fault, second: Fault) returns (outcome: Outcome)
      modifies this, journal, receipts
      ensures Turn(Contents(), outcome) == RecordRun(old(Contents()), at, fault, first, second)
    {
      hide WriteReceipts, WriteJournal;
      var error := RequireState(Verified);
      if error.Some? {
        return Refused(error.value);
      }
      var receipt := run.value.Receipt();
      var written := WriteRecord(
        run.value.JournalLine(KindAdvance, StepRecord, receipt.ownership, receipt.appliedDigest, at), fault);
      if written.Done? {
        written := WriteLines(run.value, run.value.Verification(), first, second);
      }
      outcome := Conclude(written, Recorded);
    }

    // ---------------------------------------------------------------- closing a run

    method CommitWith(run: Run, reason: ReasonCode, closing: Closing) returns (outcome: Outcome)
      modifies journal, reservations, receipts
      ensures Turn(Contents(), outcome) == CommitRun(old(Contents()), run, reason, closing)
    {
      var line := CommitLine(run.Receipt(), reason, closing.now);
      if !ValidReceipt(line) {
        return Refused(ReceiptInvalid);
      }
      outcome := WriteLine(line, closing.receiptFault);
      if !outcome.Done? {
        return;
      }
      outcome := WriteEnding(run.Token(), StepCommit, ReceiptHash(line), closing.releaseFault);
      if !outcome.Done? {
        return;
      }
      outcome := WriteRecord(
        run.JournalLine(KindFinish, StepCommit, run.Receipt().ownership, run.Receipt().appliedDigest, closing.at),
        closing.finishFault);
    }

    method CommitPlan(closing: Closing) returns (outcome: Outcome)
      modifies this, journal, reservations, receipts
      ensures Turn(Contents(), outcome) == Commit(old(Contents()), closing)
    {
      var error := RequireState(Recorded);
      if error.Some? {
        return Refused(error.value);
      }
      var closed := CommitWith(run.value, ReasonApplied, closing);
      outcome := Conclude(closed, Committed);
    }

    method RevertWith(run: Run, reason: ReasonCode, closing: Closing)
      returns (outcome: Outcome, result: Digest, restored: Digest)
      modifies receipts
      ensures Reverted(Contents(), outcome, result, restored) == RevertRun(old(Contents()), run, reason, closing)
    {
      outcome, result, restored := Done, NoDigest, NoDigest;
      if run.receipt.Some? {
        match closing.driver {
          case Dies => outcome := Died;
          case Errs => outcome := Refused(DriverFailed);
          case UnknownOwnership =>
          case Answers(receipt) =>
            var line := RollbackLine(receipt, reason);
            if !ValidRollbackReceipt(receipt) || !ValidReceipt(line) {
              outcome := Refused(ReceiptInvalid);
              return;
            }
            outcome := WriteLine(line, closing.receiptFault);
            result, restored := ReceiptHash(line), receipt.restored;
        }
      }
    }

    method RollbackWith(run: Run, reason: ReasonCode, closing: Closing) returns (outcome: Outcome)
      modifies journal, reservations, receipts
      ensures Turn(Contents(), outcome) == RollbackRun(old(Contents()), run, reason, closing)
    {
      var result, restored;
      outcome, result, restored := RevertWith(run, reason, closing);
      if !outcome.Done? {
        return;
      }
      if run.reservation.Some? {
        outcome := WriteEnding(run.Token(), StepRollback, result, closing.releaseFault);
        if !outcome.Done? {
          return;
        }
      }
      outcome := WriteRecord(
        run.JournalLine(KindFinish, StepRollback, run.Receipt().ownership, restored, closing.at), closing.finishFault);
    }

    method RollbackPlan(closing: Closing) returns (outcome: Outcome)
      modifies this, journal, reservations, receipts
      ensures Turn(Contents(), outcome) == Rollback(old(Contents()), closing)
    {
      if run.None? {
        return Refused(NoActivePlan);
      }
      if state.Terminal() {
        return Refused(OutOfOrder);
      }
      var closed := RollbackWith(run.value, ReasonRolledBack, closing);
      outcome := Conclude(closed, RolledBack);
    }

    // ---------------------------------------------------------------- recovery

    method RecoverOne(entry: Record, records: seq<Record>, rescue: Rescue) returns (outcome: Outcome)
      modifies this, journal, reservations, receipts
      ensures Turn(Contents(), outcome) == RecoverEntry(old(Contents()), entry, records, rescue)
    {
      if entry.reservation != NO_KEY && !ValidKey(entry.reservation) {
        return Refused(ReservationRefused(ReservationInvalid));
      }
      var rebuilt := Rebuilt(entry);
      if Early(entry.step) {
        outcome := RollbackWith(rebuilt, ReasonRecoveryRollback, rescue.closing);
        return;
      }
      if rebuilt.reservation.None? || entry.target == "" {
        return Refused(JournalCorrupt);
      }
      var expected, before := ScanDigests(entry, records);
      var receipt := ApplyReceipt(entry.ref, entry.target, RederivedToken(entry), before, expected, ReasonApplied,
                                  entry.at, entry.at);
      var applied := rebuilt.(receipt := Some(receipt));
      var verified := false;
      if ValidApplyReceipt(receipt) {
        match rescue.verify {
          case Dies => return Died;
          case Errs => return Refused(DriverFailed);
          case UnknownOwnership =>
          case Answers(verification) =>
            verified := ValidVerification(verification) && verification.verified && verification.expected == expected;
        }
      }
      if verified {
        log := log + [Entry(self, Reverified(receipt.ownership, receipt.appliedDigest))];
        outcome := WriteLines(applied, rescue.verify.value, rescue.first, rescue.second);
        if outcome.Done? {
          outcome := CommitWith(applied, ReasonRecoveryCommit, rescue.closing);
        }
      } else {
        outcome := RollbackWith(applied, ReasonRecoveryRollback, rescue.closing);
      }
    }

    method RecoverAll(env: RecoverEnv) returns (outcome: Outcome)
      modifies this, journal, reservations, receipts
      ensures Turn(Contents(), outcome) == Recover(old(Contents()), env)
    {
      if run.Some? && !state.Terminal() {
        return Refused(PlanActive);
      }
      if !env.readable {
        return Refused(Unavailable);
      }
      var entries := journal.InFlightEntries();
      if entries == [] {
        return Clean;
      }
      var records := journal.records;
      if env.driver.Dies? {
        outcome := Die();
        return;
      }
      if !env.driver.Answers? {
        return Refused(DriverFailed);
      }
      outcome := RecoverEach(entries, records, env.rescues);
      if outcome.Died? {
        outcome := Die();
      } else if outcome.Done? && env.reportAt == 0 {
        outcome := Refused(InvalidRequest);
      }
    }

    method RecoverEach(entries: seq<Record>, records: seq<Record>, rescues: seq<Rescue>) returns (outcome: Outcome)
      modifies this, journal, reservations, receipts
      ensures Turn(Contents(), outcome) == RecoverEntries(old(Contents()), entries, records, rescues)
    {
      outcome := Done;
      for i := 0 to |entries|
        invariant i <= |rescues| && outcome == Done
        invariant RecoverEntries(old(Contents()), entries, records, rescues)
                    == RecoverEntries(Contents(), entries[i..], records, rescues[i..])
      {
        if i == |rescues| {
          return Died;
        }
        outcome := RecoverOne(entries[i], records, rescues[i]);
        if !outcome.Done? {
          return;
        }
        assert entries[i..][1..] == entries[i + 1..] && rescues[i..][1..] == rescues[i + 1..];
      }
    }
  }

  /** One scan of the records finds both digests of an entry that may have been applied. */
  method ScanDigests(entry: Record, records: seq<Record>) returns (expected: Digest, before: Digest)
    ensures expected == ExpectedDigest(records, entry) && before == BeforeDigest(records, entry)
  {
    expected, before := entry.digest, entry.digest;
    for i := 0 to |records|
      invariant expected == ExpectedDigest(records[..i], entry) && before == BeforeDigest(records[..i], entry)
    {
      Snoc(records[..i], records[i]);
      assert records[..i + 1] == records[..i] + [records[i]];
      if records[i].ref == entry.ref {
        if entry.step.StepApply? && records[i].step.StepSimulate? {
          expected := records[i].digest;
        }
        if !entry.step.StepApply? && records[i].step.StepApply? {
          before := records[i].digest;
        }
      }
    }
    assert records[..|records|] == records;
  }
}
