/**
  When each durable write of the driver lifecycle goes through, and when a commit or a rollback as a
  whole does (agent/driver/lifecycle.go:598-679, agent/driver/journal.go:268-299,
  agent/driver/reservation.go:134-167).
*/
module DriverClosing {
  import opened Common
  import opened DriverContract
  import opened DriverJournal
  import opened DriverReservation
  import opened DriverLifecycle
  import opened DriverInvariant
  import opened DriverSafety

  /** A journal refusal that blames the order of records or the size of the journal. */
  predicate Misordered(outcome: Outcome) {
    outcome.Refused? && outcome.error.JournalRefused? && !outcome.error.journalError.JournalInvalid?
  }

  // ---------------------------------------------------------------- one write

  /** A sound journal has room: only an invalid record or an objection can stop an append. */
  lemma RoomForOne(journal: seq<Record>, record: Record)
    requires Bounded(journal) && Objection(Open(journal), record) == None
    ensures Append(journal, record).Ok? <==> ValidRecord(record)
    ensures Append(journal, record).Err? ==> Append(journal, record).error.JournalInvalid?
  {
    hide Check, Open, Compact;
    if Open(journal) != map[] {
      var ref :| ref in Open(journal);
    }
  }

  /** The journal's only open entry is the record just written, or none if that finished it. */
  ghost predicate Took(journal: seq<Record>, record: Record) {
    if record.kind.KindFinish? then Open(journal) == map[]
    else Open(journal).Keys == {record.ref} && Open(journal)[record.ref] == record
  }

  lemma WriteMatched(sys: System, record: Record, fault: Fault)
    requires Durable(sys) && Objection(Open(sys.journal), record) == None && Open(sys.journal).Keys <= {record.ref}
    ensures var written := WriteJournal(sys, record, fault);
      && !Misordered(written.outcome) && !written.outcome.Clean? && written.sys == sys.(journal := written.sys.journal)
      && (written.sys.journal == sys.journal || Took(written.sys.journal, record))
      && (written.outcome.Done? ==> Took(written.sys.journal, record))
      && (written.outcome.Refused? && !fault.Tears? ==> written.sys == sys)
  {
    hide Append, Open, TracedEntry, Bounded, Objection, ValidRecord;
    RoomForOne(sys.journal, record);
    if Append(sys.journal, record).Ok? {
      AppendBounded(sys.journal, record);
    }
  }

  // ---------------------------------------------------------------- when each durable write succeeds

  /** The booking can be released with this ending: it is open, or was released with the same step and bytes. */
  predicate Free(ledger: Ledger, planId: string, terminal: Step, result: Digest) {
    planId in ledger.bookings &&
      (ledger.bookings[planId].released ==>
       ledger.bookings[planId].terminal == terminal && ledger.bookings[planId].result == result)
  }

  predicate Unreleased(ledger: Ledger, planId: string) {
    planId in ledger.bookings ==> !ledger.bookings[planId].released
  }

  /** Exactly one booking was released, with exactly this ending. */
  ghost predicate Released(before: Ledger, after: Ledger, planId: string, terminal: Step, result: Digest) {
    && planId in before.bookings && after.floor == before.floor
    && after.bookings == before.bookings[planId := Booking(before.bookings[planId].token, true, terminal, result)]
  }

  lemma ReceiptDone(sys: System, receipt: Receipt, fault: Fault)
    ensures WriteReceipt(sys, receipt, fault).outcome.Done? <==> fault.Healthy? && ValidReceipt(receipt)
  {
    hide ValidReceipt;
  }

  lemma ReleaseDone(sys: System, token: ReservationToken, terminal: Step, result: Digest, fault: Fault)
    requires ValidLedger(sys.ledger) && Books(sys.ledger, token.key) && ValidReservationToken(token)
        && terminal.Terminal()
    ensures var turn := WriteRelease(sys, token, terminal, result, fault);
      && (turn.outcome.Done? <==> fault.Healthy? && Free(sys.ledger, token.key.planId, terminal, result))
      && (turn.outcome.Done? ==> Released(sys.ledger, turn.sys.ledger, token.key.planId, terminal, result))
  {
    hide Release, ValidReservationToken;
    ReleaseExtends(sys.ledger, token, terminal, result);
  }

  lemma FinishDone(sys: System, record: Record, fault: Fault)
    requires Durable(sys) && Open(sys.journal).Keys == {record.ref} && record.kind.KindFinish?
    ensures var turn := WriteJournal(sys, record, fault);
      && (turn.outcome.Done? <==> fault.Healthy? && ValidRecord(record))
      && (turn.sys.journal != sys.journal <==> Lands(fault) && ValidRecord(record))
      && (turn.sys.journal != sys.journal ==> Open(turn.sys.journal) == map[])
      && (turn.outcome.Done? ==> Open(turn.sys.journal) == map[])
  {
    hide Open, Bounded, TracedEntry, Append, ValidRecord;
    RoomForOne(sys.journal, record);
    WriteMatched(sys, record, fault);
    if Append(sys.journal, record).Ok? {
      AppendBounded(sys.journal, record);
    }
  }

  /** What a finished close leaves: no open entry, and the named booking released with exactly this ending. */
  ghost predicate Settled(before: System, after: System, named: bool, planId: string, terminal: Step, result: Digest) {
    && Open(after.journal) == map[]
    && (if named then Released(before.ledger, after.ledger, planId, terminal, result)
        else after.ledger == before.ledger)
  }

  function CommitFinish(run: Run, at: nat): Record {
    run.JournalLine(KindFinish, StepCommit, run.Receipt().ownership, run.Receipt().appliedDigest, at)
  }

  /** Receipt and release go through, and the finish that follows is a valid record. */
  predicate CommitClears(ledger: Ledger, run: Run, reason: ReasonCode, closing: Closing) {
    var line := CommitLine(run.Receipt(), reason, closing.now);
    && closing.receiptFault.Healthy? && ValidReceipt(line)
    && closing.releaseFault.Healthy? && Free(ledger, run.Token().key.planId, StepCommit, ReceiptHash(line))
    && ValidRecord(CommitFinish(run, closing.at))
  }

  /** A commit finishes its entry exactly when everything before the finish clears and the finish lands. */
  lemma CommitRunDone(sys: System, run: Run, reason: ReasonCode, closing: Closing)
    requires Durable(sys) && Open(sys.journal).Keys == {run.ref}
    requires Books(sys.ledger, run.Token().key) && ValidReservationToken(run.Token())
    ensures var turn := CommitRun(sys, run, reason, closing);
      var line := CommitLine(run.Receipt(), reason, closing.now);
      && (turn.outcome.Done? <==> CommitClears(sys.ledger, run, reason, closing) && closing.finishFault.Healthy?)
      && (turn.outcome.Done? ==> Settled(sys, turn.sys, true, run.Token().key.planId, StepCommit, ReceiptHash(line)))
      && (turn.sys.journal != sys.journal <==>
          CommitClears(sys.ledger, run, reason, closing) && Lands(closing.finishFault))
      && (turn.sys.journal != sys.journal ==> Open(turn.sys.journal) == map[])
      && !turn.outcome.Clean?
  {
    hide Durable, Open, WriteJournal, WriteRelease, WriteReceipt, ValidReceipt, ValidRecord, ValidReservationToken,
         Free, Released, Extends;
    var line := CommitLine(run.Receipt(), reason, closing.now);
    LedgerOfDurable(sys);
    ReceiptDone(sys, line, closing.receiptFault);
    ReceiptKeeps(sys, line, closing.receiptFault);
    var received := WriteReceipt(sys, line, closing.receiptFault);
    ReleaseDone(received.sys, run.Token(), StepCommit, ReceiptHash(line), closing.releaseFault);
    ReleaseKeeps(received.sys, run.Token(), StepCommit, ReceiptHash(line), closing.releaseFault);
    var released := WriteRelease(received.sys, run.Token(), StepCommit, ReceiptHash(line), closing.releaseFault);
    FinishDone(released.sys, CommitFinish(run, closing.at), closing.finishFault);
    WriteJournalQuiet(released.sys, CommitFinish(run, closing.at), closing.finishFault);
  }

  /** Whether the driver lets a rollback go ahead, and the bytes it is then released with. */
  predicate Reverts(run: Run, closing: Closing) {
    run.receipt.None? || closing.driver.UnknownOwnership?
    || (closing.driver.Answers? && ValidRollbackReceipt(closing.driver.value) && closing.receiptFault.Healthy?)
  }

  function RevertResult(run: Run, reason: ReasonCode, closing: Closing): Digest {
    if run.receipt.Some? && closing.driver.Answers? then ReceiptHash(RollbackLine(closing.driver.value, reason))
        else NoDigest
  }

  function RevertDigest(run: Run, closing: Closing): Digest {
    if run.receipt.Some? && closing.driver.Answers? then closing.driver.value.restored else NoDigest
  }

  lemma RevertDone(sys: System, run: Run, reason: ReasonCode, closing: Closing)
    requires ValidReason(reason)
    ensures var reverted := RevertRun(sys, run, reason, closing);
      && (reverted.outcome.Done? <==> Reverts(run, closing))
      && (reverted.outcome.Done? ==>
            reverted.result == RevertResult(run, reason, closing) && reverted.restored == RevertDigest(run, closing))
      && reverted.sys.journal == sys.journal && reverted.sys.ledger == sys.ledger
  {
    hide WriteReceipt;
    if closing.driver.Answers? {
      ReceiptDone(sys, RollbackLine(closing.driver.value, reason), closing.receiptFault);
      WriteReceiptQuiet(sys, RollbackLine(closing.driver.value, reason), closing.receiptFault);
    }
  }

  function RollbackFinish(run: Run, closing: Closing): Record {
    run.JournalLine(KindFinish, StepRollback, run.Receipt().ownership, RevertDigest(run, closing), closing.at)
  }

  /** The driver lets the rollback go ahead, the release goes through, and the finish is a valid record. */
  predicate RollbackClears(ledger: Ledger, run: Run, reason: ReasonCode, closing: Closing) {
    && Reverts(run, closing)
    && (run.reservation.Some? ==>
          && closing.releaseFault.Healthy?
          && Free(ledger, run.Token().key.planId, StepRollback, RevertResult(run, reason, closing)))
    && ValidRecord(RollbackFinish(run, closing))
  }

  /** A rollback finishes its entry exactly when everything before the finish clears and the finish lands. */
  lemma RollbackRunDone(sys: System, run: Run, reason: ReasonCode, closing: Closing)
    requires Durable(sys) && Open(sys.journal).Keys == {run.ref} && ValidReason(reason)
    requires run.reservation.Some? ==> Books(sys.ledger, run.Token().key) && ValidReservationToken(run.Token())
    ensures var turn := RollbackRun(sys, run, reason, closing);
      var result := RevertResult(run, reason, closing);
      && (turn.outcome.Done? <==> RollbackClears(sys.ledger, run, reason, closing) && closing.finishFault.Healthy?)
      && (turn.outcome.Done? ==>
            Settled(sys, turn.sys, run.reservation.Some?, run.Token().key.planId, StepRollback, result))
      && (turn.sys.journal != sys.journal <==>
          RollbackClears(sys.ledger, run, reason, closing) && Lands(closing.finishFault))
      && (turn.sys.journal != sys.journal ==> Open(turn.sys.journal) == map[])
      && !turn.outcome.Clean?
  {
    hide Durable, Open, WriteJournal, WriteRelease, RevertRun, ValidRecord, ValidReservationToken, Free, Released,
         Extends, Reverts, RevertResult, RevertDigest;
    LedgerOfDurable(sys);
    RevertDone(sys, run, reason, closing);
    RevertRunKeeps(sys, run, reason, closing);
    var reverted := RevertRun(sys, run, reason, closing);
    if reverted.outcome.Done? {
      if run.reservation.Some? {
        ReleaseDone(reverted.sys, run.Token(), StepRollback, reverted.result, closing.releaseFault);
        ReleaseKeeps(reverted.sys, run.Token(), StepRollback, reverted.result, closing.releaseFault);
      }
      var released :=
        if run.reservation.None? then Turn(reverted.sys, Done)
        else WriteRelease(reverted.sys, run.Token(), StepRollback, reverted.result, closing.releaseFault);
      FinishDone(released.sys, RollbackFinish(run, closing), closing.finishFault);
      WriteJournalQuiet(released.sys, RollbackFinish(run, closing), closing.finishFault);
    }
  }
}
