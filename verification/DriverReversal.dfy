/**
  A commit that is released but not finished, and the rollback the lifecycle then permits
  (agent/driver/lifecycle.go:582-679): the driver reverts the host while the booking says COMMIT.
*/
module DriverReversal {
  import opened Common
  import opened DriverContract
  import opened DriverJournal
  import opened DriverReservation
  import opened DriverLifecycle
  import opened DriverInvariant
  import opened DriverSafety
  import opened DriverClosing
  import opened DriverCorrespondence
  import opened DriverRecovery

  /** The booking was released as COMMIT. */
  predicate SaysCommit(ledger: Ledger, planId: string) {
    && planId in ledger.bookings && ledger.bookings[planId].released
    && ledger.bookings[planId].terminal.StepCommit?
  }

  // ---------------------------------------------------------------- how the window opens

  /** The commit receipt is written and the release takes effect, whatever is then reported. */
  predicate ReleaseTakesEffect(closing: Closing) {
    closing.now != 0 && closing.receiptFault.Healthy? && Lands(closing.releaseFault)
  }

  /** And the process lives on, told that the commit failed. */
  predicate ReportsFailure(closing: Closing) {
    || closing.releaseFault.Tears?
    || (closing.releaseFault.Healthy? && !Kills(closing.finishFault)
        && !(closing.finishFault.Healthy? && closing.at != 0))
  }

  lemma RecordedRecords(run: Run, closing: Closing)
    requires Facts(run, 9)
    ensures ValidReceipt(CommitLine(run.Receipt(), ReasonApplied, closing.now)) <==> closing.now != 0
    ensures ValidRecord(CommitFinish(run, closing.at)) <==> closing.at != 0
  {
  }

  lemma WriteDies(sys: System, record: Record, fault: Fault)
    ensures WriteJournal(sys, record, fault).outcome.Died? <==> Kills(fault)
    ensures !WriteJournal(sys, record, fault).outcome.Clean?
  {
    hide Append;
  }

  lemma ReceiptKept(sys: System, receipt: Receipt, fault: Fault)
    ensures var turn := WriteReceipt(sys, receipt, fault);
      && turn.sys == sys.(receipts := turn.sys.receipts)
      && (ValidReceipt(receipt) && Lands(fault) ==> receipt in turn.sys.receipts)
      && (forall line | line in sys.receipts :: line in turn.sys.receipts)
  {
    hide ValidReceipt;
  }

  lemma CommitReleases(sys: System, run: Run, closing: Closing)
    requires Durable(sys) && Open(sys.journal).Keys == {run.ref} && Facts(run, 9) && RunBooked(run, sys.ledger)
    requires Unreleased(sys.ledger, run.ref.planId)
    ensures var turn, line :=
        CommitRun(sys, run, ReasonApplied, closing), CommitLine(run.Receipt(), ReasonApplied, closing.now);
      && turn.sys.memory == sys.memory && !turn.outcome.Clean?
      && (if ReleaseTakesEffect(closing) then
            && Released(sys.ledger, turn.sys.ledger, run.ref.planId, StepCommit, ReceiptHash(line))
            && line in turn.sys.receipts && (turn.outcome.Refused? <==> ReportsFailure(closing))
          else turn.sys.ledger == sys.ledger)
  {
    hide Durable, Open, WriteReceipt, WriteRelease, WriteJournal, ValidReceipt, ValidRecord, Facts, RunBooked, Released,
         Extends, Verdict;
    var line := CommitLine(run.Receipt(), ReasonApplied, closing.now);
    RecordedRecords(run, closing);
    TokenOfRecorded(run, sys.ledger);
    LedgerOfDurable(sys);
    ReceiptDone(sys, line, closing.receiptFault);
    ReceiptKept(sys, line, closing.receiptFault);
    ReceiptKeeps(sys, line, closing.receiptFault);
    var received := WriteReceipt(sys, line, closing.receiptFault).sys;
    if closing.now != 0 && closing.receiptFault.Healthy? {
      ReleaseByFault(received, run, ReceiptHash(line), closing.releaseFault);
      var released := WriteRelease(received, run.Token(), StepCommit, ReceiptHash(line), closing.releaseFault);
      ReleaseKeeps(received, run.Token(), StepCommit, ReceiptHash(line), closing.releaseFault);
      WriteJournalQuiet(released.sys, CommitFinish(run, closing.at), closing.finishFault);
      WriteDies(released.sys, CommitFinish(run, closing.at), closing.finishFault);
      FinishDone(released.sys, CommitFinish(run, closing.at), closing.finishFault);
    }
  }

  lemma ReleaseByFault(sys: System, run: Run, result: Digest, fault: Fault)
    requires ValidLedger(sys.ledger) && Facts(run, 9) && RunBooked(run, sys.ledger)
    requires Unreleased(sys.ledger, run.ref.planId)
    ensures var turn := WriteRelease(sys, run.Token(), StepCommit, result, fault);
      && turn.sys == sys.(ledger := turn.sys.ledger)
      && (if Lands(fault) then Released(sys.ledger, turn.sys.ledger, run.ref.planId, StepCommit, result)
          else turn.sys.ledger == sys.ledger)
      && (turn.outcome.Done? <==> fault.Healthy?) && (turn.outcome.Died? <==> Kills(fault)) && !turn.outcome.Clean?
  {
    hide Released, Facts;
    TokenOfRecorded(run, sys.ledger);
    RecordedIsAcknowledged(run);
    if Lands(fault) {
      ReleaseLands(sys, run.Token(), StepCommit, result, fault);
    }
  }

  lemma RecordedIsAcknowledged(run: Run)
    requires Facts(run, 9)
    ensures run.receipt.Some? && run.reservation.Some?
  {
  }

  /**
    Exactly which commits leave the lifecycle active over a booking released as COMMIT: those whose
    release takes effect and that are then told of a failure.
  */
  lemma CommitLeavesItOpen(sys: System, closing: Closing)
    requires Good(sys) && sys.memory.run.Some? && sys.memory.state.Recorded?
    requires Unreleased(sys.ledger, sys.memory.run.value.ref.planId)
    ensures var after, planId := Commit(sys, closing).sys, sys.memory.run.value.ref.planId;
      (after.memory.Active() && SaysCommit(after.ledger, planId)) <==>
        ReleaseTakesEffect(closing) && ReportsFailure(closing)
  {
    hide Good, Durable, Open, CommitRun, Facts, Script, RunBooked, ReleaseTakesEffect, ReportsFailure;
    LiveFacts(sys);
    CommitReleases(sys, sys.memory.run.value, closing);
  }

  // ---------------------------------------------------------------- what a rollback then does

  /** A release as ROLLBACK of a booking already released as COMMIT never goes through. */
  lemma ReleaseConflicts(sys: System, run: Run, result: Digest, fault: Fault)
    requires ValidLedger(sys.ledger) && RunBooked(run, sys.ledger) && run.reservation.Some?
    requires SaysCommit(sys.ledger, run.ref.planId)
    ensures var turn := WriteRelease(sys, run.Token(), StepRollback, result, fault);
      && turn.sys == sys && !turn.outcome.Done? && !turn.outcome.Clean?
      && (fault.Healthy? ==> turn.outcome == Refused(ReservationRefused(ReservationConflict)))
      && (turn.outcome.Died? <==> Kills(fault))
  {
  }

  lemma RollbackConflicts(sys: System, run: Run, closing: Closing)
    requires ValidLedger(sys.ledger) && RunBooked(run, sys.ledger) && run.reservation.Some? && run.receipt.Some?
    requires SaysCommit(sys.ledger, run.ref.planId)
    ensures var turn := RollbackRun(sys, run, ReasonRolledBack, closing);
      && turn.sys == sys.(receipts := turn.sys.receipts) && !turn.outcome.Done? && !turn.outcome.Clean?
      && (forall line | line in sys.receipts :: line in turn.sys.receipts)
      && (HostReverted(closing) ==> RollbackLine(closing.driver.value, ReasonRolledBack) in turn.sys.receipts)
      && (Reverts(run, closing) && closing.releaseFault.Healthy? ==>
            turn.outcome == Refused(ReservationRefused(ReservationConflict)))
  {
    hide RevertRun, WriteRelease, WriteJournal, RunBooked, SaysCommit, Reverts, HostReverted, ValidLedger;
    RevertDone(sys, run, ReasonRolledBack, closing);
    RevertKept(sys, run, closing);
    var reverted := RevertRun(sys, run, ReasonRolledBack, closing);
    ReleaseConflicts(reverted.sys, run, reverted.result, closing.releaseFault);
  }

  /** The driver reverted the host and its receipt reached the log. */
  predicate HostReverted(closing: Closing) {
    closing.driver.Answers? && ValidRollbackReceipt(closing.driver.value) && Lands(closing.receiptFault)
  }

  lemma RevertKept(sys: System, run: Run, closing: Closing)
    requires run.receipt.Some?
    ensures var reverted := RevertRun(sys, run, ReasonRolledBack, closing);
      && reverted.sys == sys.(receipts := reverted.sys.receipts) && !reverted.outcome.Clean?
      && (forall line | line in sys.receipts :: line in reverted.sys.receipts)
      && (HostReverted(closing) ==> RollbackLine(closing.driver.value, ReasonRolledBack) in reverted.sys.receipts)
  {
    hide WriteReceipt;
    if closing.driver.Answers? {
      var line := RollbackLine(closing.driver.value, ReasonRolledBack);
      ReceiptKept(sys, line, closing.receiptFault);
      WriteReceiptQuiet(sys, line, closing.receiptFault);
    }
  }

  /**
    A live rollback of an acknowledged apply leaves the booking as COMMIT if and only if it was COMMIT
    before the call; and then it releases nothing and never succeeds.
  */
  lemma RollbackKeepsCommit(sys: System, closing: Closing)
    requires Good(sys) && sys.memory.Active() && sys.memory.run.value.receipt.Some?
    ensures var turn, planId := Rollback(sys, closing), sys.memory.run.value.ref.planId;
      && (SaysCommit(turn.sys.ledger, planId) <==> SaysCommit(sys.ledger, planId))
      && (SaysCommit(sys.ledger, planId) ==> turn.sys.ledger == sys.ledger && !turn.outcome.Done?)
  {
    hide Good, Durable, Open, RollbackRun, RunBooked, Acknowledged, ValidLedger, RevertRun;
    var run := sys.memory.run.value;
    BookedOfGood(sys);
    AcknowledgedOfGood(sys);
    AcknowledgedIsReserved(run, sys.journal);
    LedgerOfGood(sys);
    if SaysCommit(sys.ledger, run.ref.planId) {
      RollbackConflicts(sys, run, closing);
    } else {
      RollbackRunReleases(sys, run, ReasonRolledBack, closing);
    }
  }

  lemma AcknowledgedIsReserved(run: Run, journal: seq<Record>)
    requires Acknowledged(run, journal) && run.receipt.Some?
    ensures run.reservation.Some?
  {
  }

  /**
    A commit that left itself open, followed by the rollback the lifecycle permits: the driver reverts
    the host, the receipt log has the commit and the rollback, the booking still says COMMIT, and the
    rollback is refused.
  */
  lemma RevertedAgainstCommit(sys: System, closing: Closing, again: Closing)
    requires Good(sys) && sys.memory.run.Some? && sys.memory.state.Recorded?
    requires Unreleased(sys.ledger, sys.memory.run.value.ref.planId)
    requires ReleaseTakesEffect(closing) && ReportsFailure(closing) && HostReverted(again)
    ensures var failed, run := Commit(sys, closing).sys, sys.memory.run.value;
      var turn := Rollback(failed, again);
      && failed.memory == Memory(Failed, Some(run)) && !turn.outcome.Done?
      && SaysCommit(turn.sys.ledger, run.ref.planId) && turn.sys.ledger == failed.ledger
      && CommitLine(run.Receipt(), ReasonApplied, closing.now) in turn.sys.receipts
      && RollbackLine(again.driver.value, ReasonRolledBack) in turn.sys.receipts
      && (again.receiptFault.Healthy? && again.releaseFault.Healthy? ==>
            turn.outcome == Refused(ReservationRefused(ReservationConflict)) && turn.sys.memory.state.Failed?)
  {
    hide Good, Durable, Open, CommitRun, RollbackRun, Facts, Script, RunBooked, ReleaseTakesEffect, ReportsFailure,
         ValidLedger;
    var run, failed := sys.memory.run.value, Commit(sys, closing).sys;
    LiveFacts(sys);
    CommitReleases(sys, run, closing);
    CommitKeeps(sys, closing);
    BookedOfGood(failed);
    LedgerOfGood(failed);
    RecordedIsAcknowledged(run);
    RollbackConflicts(failed, run, again);
  }
}
