/**
  When the memory of a lifecycle and the journal it owns correspond step for step
  (agent/driver/lifecycle.go, agent/driver/journal.go): in exactly the runs in which no approval and
  no finish of a live close is torn that would otherwise have gone through.  A torn write takes effect
  and still reports an error (agent/driver/journal_file.go:292-295).
*/
module DriverCorrespondence {
  import opened Common
  import opened DriverContract
  import opened DriverJournal
  import opened DriverReservation
  import opened DriverLifecycle
  import opened DriverInvariant
  import opened DriverSafety
  import opened DriverClosing

  /** The one open record of an active run is its own, at exactly the step its state says. */
  ghost predicate Matched(memory: Memory, journal: seq<Record>) {
    && (memory.Active() ==> Open(journal).Keys == {memory.run.value.ref})
    && (Live(memory) ==> Open(journal)[memory.run.value.ref].step == StepFor(memory.state))
  }

  /**
    The calls that part memory from journal: an approval, or the finish of a live close, that would have
    gone through and is torn.  Each condition can be read off the state and the answers before the call.
  */
  ghost predicate Splits(sys: System, action: Action) {
    match action
    case DoApprove(approval, at, fault) =>
      && fault.Tears? && Require(sys.memory, Simulated) == None
      && ValidApproval(approval) && Binds(approval, sys.memory.run.value) && at != 0
    case DoCommit(closing) =>
      && closing.finishFault.Tears? && Require(sys.memory, Recorded) == None
      && CommitClears(sys.ledger, sys.memory.run.value, ReasonApplied, closing)
    case DoRollback(closing) =>
      && closing.finishFault.Tears? && sys.memory.Active()
      && RollbackClears(sys.ledger, sys.memory.run.value, ReasonRolledBack, closing)
    case _ => false
  }

  // ---------------------------------------------------------------- one write

  /** A journalled advance of an active run, from its record to the state it settles in. */
  lemma SettleMatched(sys: System, record: Record, fault: Fault, state: State)
    requires Durable(sys) && sys.memory.Active() && record.ref == sys.memory.run.value.ref && record.kind.KindAdvance?
    requires Open(sys.journal).Keys == {record.ref} && Open(sys.journal)[record.ref].step.Rank() < record.step.Rank()
    requires record.step == StepFor(state) && !state.Terminal()
    ensures var turn := Settle(WriteJournal(sys, record, fault), state, Failed);
      Matched(turn.sys.memory, turn.sys.journal) && !Misordered(turn.outcome)
  {
    hide WriteJournal, Durable, Open;
    WriteMatched(sys, record, fault);
  }

  // ---------------------------------------------------------------- each call

  lemma BeginMatched(sys: System, ref: PlanRef, readable: bool, at: nat, fault: Fault)
    requires Good(sys) && Matched(sys.memory, sys.journal)
    ensures var turn := Begin(sys, ref, readable, at, fault);
      Matched(turn.sys.memory, turn.sys.journal) && !Misordered(turn.outcome)
  {
    hide WriteJournal, Durable, Open;
    if !sys.memory.Active() && Open(sys.journal) == map[] {
      var record := NewRun(ref).JournalLine(KindBegin, StepCapture, NoDigest, NoDigest, at);
      BegunDurable(sys, ref);
      WriteMatched(sys.Log(Began(ref)), record, fault);
    }
  }

  lemma BegunDurable(sys: System, ref: PlanRef)
    requires Durable(sys) && Open(sys.journal) == map[]
    ensures Durable(sys.Log(Began(ref)))
  {
    hide Bounded, Open;
  }

  lemma CaptureMatched(sys: System, scopeValid: bool, reply: Reply<Digest>)
    requires Good(sys) && Matched(sys.memory, sys.journal)
    ensures var turn := Capture(sys, scopeValid, reply);
      Matched(turn.sys.memory, turn.sys.journal) && !Misordered(turn.outcome)
  {
    hide Durable, Open;
  }

  lemma SimulateMatched(sys: System, operation: Option<Operation>, reply: Reply<Simulation>, at: nat, fault: Fault)
    requires Good(sys) && Matched(sys.memory, sys.journal)
    ensures var turn := Simulate(sys, operation, reply, at, fault);
      Matched(turn.sys.memory, turn.sys.journal) && !Misordered(turn.outcome)
  {
    hide Good, Durable, Open, WriteJournal, Fits, Settle, Script, Facts;
    if Require(sys.memory, Captured) == None && operation.Some? && reply.Answers? {
      LiveFacts(sys);
      var next := Predicted(sys.memory.run.value, operation.value, reply.value);
      var event := SimulatedPlan(operation.value, reply.value.snapshotDigest, reply.value.afterDigest);
      LogKeeps(sys, event);
      MemoryIsNotDurable(sys.Log(event), Memory(Captured, Some(next)));
      SettleMatched(sys.Log(event).With(Captured, next),
                    next.JournalLine(KindAdvance, StepSimulate, NoDigest, reply.value.afterDigest, at), fault,
                    Simulated);
    }
  }

  lemma ApproveMatched(sys: System, approval: Approval, at: nat, fault: Fault)
    requires Good(sys) && Matched(sys.memory, sys.journal)
    ensures var turn := Approve(sys, approval, at, fault);
      && !Misordered(turn.outcome)
      && (Matched(turn.sys.memory, turn.sys.journal) <==> !Splits(sys, DoApprove(approval, at, fault)))
  {
    hide Good, Durable, Open, WriteJournal, ValidApproval, Binds, Script, Facts;
    if Require(sys.memory, Simulated) == None && ValidApproval(approval) && Binds(approval, sys.memory.run.value) {
      var record := sys.memory.run.value.JournalLine(KindAdvance, StepApprove, NoDigest, approval.digest, at);
      LiveFacts(sys);
      WriteMatched(sys, record, fault);
      ApprovalLands(sys, approval, at, fault);
    }
  }

  lemma ApprovalLands(sys: System, approval: Approval, at: nat, fault: Fault)
    requires Good(sys) && Matched(sys.memory, sys.journal) && sys.memory.run.Some? && sys.memory.state.Simulated?
    requires ValidApproval(approval)
    ensures var written := WriteJournal(
        sys, sys.memory.run.value.JournalLine(KindAdvance, StepApprove, NoDigest, approval.digest, at), fault);
      (written.sys.journal != sys.journal <==> Lands(fault) && at != 0) && (fault.Tears? ==> written.outcome.Refused?)
  {
    hide Good, Durable, Open, Append, Script, TracedEntry, Facts, ValidApproval, ValidRecord;
    var record := sys.memory.run.value.JournalLine(KindAdvance, StepApprove, NoDigest, approval.digest, at);
    LiveFacts(sys);
    BoundedOfGood(sys);
    ApprovalRecordValid(sys.memory.run.value, approval, at);
    RoomForOne(sys.journal, record);
    if Append(sys.journal, record).Ok? {
      AppendBounded(sys.journal, record);
    }
  }

  lemma ReserveMatched(sys: System, key: ReservationKey, now: nat, storeFault: Fault, at: nat, fault: Fault)
    requires Good(sys) && Matched(sys.memory, sys.journal)
    ensures var turn := DriverLifecycle.Reserve(sys, key, now, storeFault, at, fault);
      Matched(turn.sys.memory, turn.sys.journal) && !Misordered(turn.outcome)
  {
    hide Good, StoreReservation, ValidKey, Open;
    if Require(sys.memory, Approved) == None {
      StoreReservationMatched(sys, key, now, storeFault, at, fault);
    }
  }

  lemma StoreReservationMatched(sys: System, key: ReservationKey, now: nat, storeFault: Fault, at: nat, fault: Fault)
    requires Good(sys) && Matched(sys.memory, sys.journal) && sys.memory.run.Some? && sys.memory.state.Approved?
    ensures var turn := StoreReservation(sys, sys.memory.run.value, key, now, storeFault, at, fault);
      Matched(turn.sys.memory, turn.sys.journal) && !Misordered(turn.outcome)
  {
    hide Good, Durable, Open, JournalReservation, Script, Facts, ValidLedger, DriverReservation.Reserve, Extends,
         RunBooked;
    LiveFacts(sys);
    ReserveExtends(sys.ledger, key, now);
    var (ledger, reply) := DriverReservation.Reserve(sys.ledger, key, now);
    LedgerKeeps(sys, ledger);
    if reply.Ok? && reply.value.Fresh? {
      var token := reply.value.token;
      LogKeeps(sys.(ledger := ledger), Granted(token));
      JournalReservationMatched(sys.(ledger := ledger).Log(Granted(token)), token, at, fault);
    }
  }

  lemma JournalReservationMatched(sys: System, token: ReservationToken, at: nat, fault: Fault)
    requires Durable(sys) && Matched(sys.memory, sys.journal) && sys.memory.run.Some? && sys.memory.state.Approved?
    ensures var turn := JournalReservation(sys, sys.memory.run.value, token, at, fault);
      Matched(turn.sys.memory, turn.sys.journal) && !Misordered(turn.outcome)
  {
    hide Durable, Open, WriteJournal, Settle;
    var next := sys.memory.run.value.(reservation := Some(token));
    MemoryIsNotDurable(sys, Memory(Approved, Some(next)));
    SettleMatched(sys.With(Approved, next), next.JournalLine(KindAdvance, StepReserve, NoDigest, token.token, at),
                  fault, Reserved);
  }

  lemma JournalApplyMatched(sys: System, at: nat, fault: Fault, reply: Reply<ApplyReceipt>, at': nat, fault': Fault)
    requires Good(sys) && Matched(sys.memory, sys.journal) && sys.memory.run.Some? && sys.memory.state.Reserved?
    ensures var turn := JournalApply(sys, sys.memory.run.value, at, fault, reply, at', fault');
      Matched(turn.sys.memory, turn.sys.journal) && !Misordered(turn.outcome)
  {
    hide Good, Durable, Open, WriteJournal, ValidApplyReceipt, BoundTo, JournalReceipt, Script, Facts, TracedEntry,
         RequestOf;
    var run := sys.memory.run.value;
    var noted := sys.Log(HostUnchanged(run.digest));
    var record := run.JournalLine(KindAdvance, StepApply, NoDigest, run.digest, at);
    LiveFacts(sys);
    LogKeeps(sys, HostUnchanged(run.digest));
    WriteMatched(noted, record, fault);
    var written := WriteJournal(noted, record, fault);
    if written.outcome.Done? && reply.Answers? {
      AppliedDurable(sys, at, fault);
      JournalReceiptMatched(written.sys.Log(CalledApply(RequestOf(run))), reply.value, at', fault');
    }
  }

  lemma JournalReceiptMatched(sys: System, receipt: ApplyReceipt, at: nat, fault: Fault)
    requires Durable(sys) && |Trail(sys.log, sys.self)| == 7 && sys.memory.run.Some? && sys.memory.state.Reserved?
    requires Open(sys.journal).Keys == {sys.memory.run.value.ref}
        && Open(sys.journal)[sys.memory.run.value.ref].step.StepApply?
    ensures var turn := JournalReceipt(sys, sys.memory.run.value, receipt, at, fault);
      Matched(turn.sys.memory, turn.sys.journal) && !Misordered(turn.outcome)
  {
    hide Durable, Open, WriteJournal, Settle, Trail;
    var next := sys.memory.run.value.(receipt := Some(receipt));
    LogKeeps(sys, AcceptedReceipt(receipt));
    MemoryIsNotDurable(sys.Log(AcceptedReceipt(receipt)), Memory(Reserved, Some(next)));
    SettleMatched(sys.Log(AcceptedReceipt(receipt)).With(Reserved, next),
                  next.JournalLine(KindAdvance, StepVerify, receipt.ownership, receipt.appliedDigest, at), fault,
                  Applied);
  }

  lemma AppliedDurable(sys: System, at: nat, fault: Fault)
    requires Good(sys) && sys.memory.run.Some? && sys.memory.state.Reserved?
    ensures var run := sys.memory.run.value;
      var written := WriteJournal(sys.Log(HostUnchanged(run.digest)),
                                  run.JournalLine(KindAdvance, StepApply, NoDigest, run.digest, at), fault);
      && Durable(written.sys)
      && (written.outcome.Done? ==>
            var called := written.sys.Log(CalledApply(RequestOf(run)));
            Durable(called) && |Trail(called.log, called.self)| == 7)
  {
    hide Good, Durable, Open, TracedEntry, WriteJournal, Script;
    var run := sys.memory.run.value;
    var event := HostUnchanged(run.digest);
    var record := run.JournalLine(KindAdvance, StepApply, NoDigest, run.digest, at);
    LiveFacts(sys);
    LiveEntry(sys);
    LogKeeps(sys, event);
    ScriptAuthorizes(run, sys.ledger);
    ScriptGrows(run, 5);
    ApplyTraced(sys.Log(event), Open(sys.journal)[run.ref], record);
    WriteKeeps(sys.Log(event), record, fault);
    var written := WriteJournal(sys.Log(event), record, fault);
    if written.outcome.Done? {
      LogApplyKeeps(written.sys, RequestOf(run));
    }
  }

  lemma ApplyMatched(sys: System, capture: Reply<Digest>, at: nat, fault: Fault, reply: Reply<ApplyReceipt>, at': nat,
                     fault': Fault)
    requires Good(sys) && Matched(sys.memory, sys.journal)
    ensures var turn := Apply(sys, capture, at, fault, reply, at', fault');
      Matched(turn.sys.memory, turn.sys.journal) && !Misordered(turn.outcome)
  {
    hide Good, JournalApply, Open;
    if Require(sys.memory, Reserved) == None {
      JournalApplyMatched(sys, at, fault, reply, at', fault');
    }
  }

  lemma VerifyMatched(sys: System, reply: Reply<Verification>)
    requires Good(sys) && Matched(sys.memory, sys.journal)
    ensures var turn := Verify(sys, reply); Matched(turn.sys.memory, turn.sys.journal) && !Misordered(turn.outcome)
  {
    hide Good, Open, ValidVerification;
  }

  lemma RecordMatched(sys: System, at: nat, fault: Fault, first: Fault, second: Fault)
    requires Good(sys) && Matched(sys.memory, sys.journal)
    ensures var turn := RecordRun(sys, at, fault, first, second);
      Matched(turn.sys.memory, turn.sys.journal) && !Misordered(turn.outcome)
  {
    hide Durable, Open, WriteJournal, WriteReceipts, Script, Facts;
    if Require(sys.memory, Verified) == None {
      var run := sys.memory.run.value;
      var record := run.JournalLine(KindAdvance, StepRecord, run.Receipt().ownership, run.Receipt().appliedDigest, at);
      WriteMatched(sys, record, fault);
      ReceiptsMatched(WriteJournal(sys, record, fault).sys, run, run.Verification(), first, second);
    }
  }

  lemma ReceiptsMatched(sys: System, run: Run, verification: Verification, first: Fault, second: Fault)
    ensures var turn := WriteReceipts(sys, run, verification, first, second);
      turn.sys == sys.(receipts := turn.sys.receipts) && !Misordered(turn.outcome) && !turn.outcome.Clean?
  {
    hide AppendReceipt;
  }

  // ---------------------------------------------------------------- closing a run

  /** A close either leaves the journal alone or empties it; it is never told that it comes out of order. */
  ghost predicate ClosesMatched(before: System, turn: Turn, finishFault: Fault) {
    && turn.sys.self == before.self && turn.sys.memory == before.memory && turn.sys.log == before.log
    && (turn.sys.journal == before.journal || Open(turn.sys.journal) == map[])
    && (turn.outcome.Done? ==> Open(turn.sys.journal) == map[])
    && (turn.outcome.Refused? && !finishFault.Tears? ==> turn.sys.journal == before.journal)
    && !Misordered(turn.outcome) && !turn.outcome.Clean?
  }

  lemma CommitRunMatched(sys: System, run: Run, reason: ReasonCode, closing: Closing)
    requires Durable(sys) && Open(sys.journal).Keys == {run.ref}
    ensures ClosesMatched(sys, CommitRun(sys, run, reason, closing), closing.finishFault)
  {
    hide Durable, Open, WriteJournal, Release, AppendReceipt, ValidReceipt, Extends;
    var line := CommitLine(run.Receipt(), reason, closing.now);
    ReceiptKeeps(sys, line, closing.receiptFault);
    var received := WriteReceipt(sys, line, closing.receiptFault);
    ReleaseKeeps(received.sys, run.Token(), StepCommit, ReceiptHash(line), closing.releaseFault);
    var released := WriteRelease(received.sys, run.Token(), StepCommit, ReceiptHash(line), closing.releaseFault);
    WriteMatched(released.sys,
                 run.JournalLine(KindFinish, StepCommit, run.Receipt().ownership, run.Receipt().appliedDigest,
                                 closing.at),
                 closing.finishFault);
  }

  lemma RollbackRunMatched(sys: System, run: Run, reason: ReasonCode, closing: Closing)
    requires Durable(sys) && Open(sys.journal).Keys == {run.ref}
    ensures ClosesMatched(sys, RollbackRun(sys, run, reason, closing), closing.finishFault)
  {
    hide Durable, Open, WriteJournal, Release, RevertRun, Extends;
    RevertRunKeeps(sys, run, reason, closing);
    RevertRunMatched(sys, run, reason, closing);
    var reverted := RevertRun(sys, run, reason, closing);
    ReleaseKeeps(reverted.sys, run.Token(), StepRollback, reverted.result, closing.releaseFault);
    var released :=
      if run.reservation.None? then Turn(reverted.sys, Done)
      else WriteRelease(reverted.sys, run.Token(), StepRollback, reverted.result, closing.releaseFault);
    WriteMatched(released.sys,
                 run.JournalLine(KindFinish, StepRollback, run.Receipt().ownership, reverted.restored, closing.at),
                 closing.finishFault);
  }

  lemma RevertRunMatched(sys: System, run: Run, reason: ReasonCode, closing: Closing)
    ensures !Misordered(RevertRun(sys, run, reason, closing).outcome)
  {
    hide AppendReceipt, ValidReceipt, ValidRollbackReceipt;
  }

  lemma SettledMatched(sys: System, turn: Turn, finishFault: Fault, state: State)
    requires sys.memory.Active() && Matched(sys.memory, sys.journal) && ClosesMatched(sys, turn, finishFault)
    requires state.Committed? || state.RolledBack?
    ensures var settled := Settle(turn, state, Failed);
      && !Misordered(settled.outcome)
      && (Matched(settled.sys.memory, settled.sys.journal) <==>
          !(turn.outcome.Refused? && turn.sys.journal != sys.journal))
  {
    hide Open;
  }

  lemma CommitMatched(sys: System, closing: Closing)
    requires Good(sys) && Matched(sys.memory, sys.journal)
    ensures var turn := Commit(sys, closing);
      && !Misordered(turn.outcome)
      && (Matched(turn.sys.memory, turn.sys.journal) <==> !Splits(sys, DoCommit(closing)))
  {
    hide Good, Durable, Open, CommitRun, Settle, Facts, Script, ClosesMatched, CommitClears, RunBooked, ValidReceipt;
    if Require(sys.memory, Recorded) == None {
      var run := sys.memory.run.value;
      LiveFacts(sys);
      TokenOfRecorded(run, sys.ledger);
      CommitRunDone(sys, run, ReasonApplied, closing);
      CommitRunMatched(sys, run, ReasonApplied, closing);
      SettledMatched(sys, CommitRun(sys, run, ReasonApplied, closing), closing.finishFault, Committed);
      CommitRunEnds(sys, run, ReasonApplied, closing);
    }
  }

  lemma TokenOfRecorded(run: Run, ledger: Ledger)
    requires Facts(run, 9) && RunBooked(run, ledger)
    ensures Books(ledger, run.Token().key) && ValidReservationToken(run.Token())
  {
  }

  /** When the finish of a commit landed, what the commit reports is the verdict on that write. */
  lemma CommitRunEnds(sys: System, run: Run, reason: ReasonCode, closing: Closing)
    ensures var turn := CommitRun(sys, run, reason, closing);
      turn.sys.journal != sys.journal ==> turn.outcome == Verdict(closing.finishFault)
  {
    hide Append, Release, AppendReceipt, ValidReceipt;
  }

  lemma RollbackRunEnds(sys: System, run: Run, reason: ReasonCode, closing: Closing)
    ensures var turn := RollbackRun(sys, run, reason, closing);
      turn.sys.journal != sys.journal ==> turn.outcome == Verdict(closing.finishFault)
  {
    hide Append, Release, AppendReceipt, ValidReceipt, ValidRollbackReceipt;
  }

  lemma RollbackMatched(sys: System, closing: Closing)
    requires Good(sys) && Matched(sys.memory, sys.journal)
    ensures var turn := Rollback(sys, closing);
      && !Misordered(turn.outcome)
      && (Matched(turn.sys.memory, turn.sys.journal) <==> !Splits(sys, DoRollback(closing)))
  {
    hide Durable, Open, RollbackRun, Settle, Facts, Script, ClosesMatched, RollbackClears;
    if sys.memory.Active() {
      var run := sys.memory.run.value;
      RollbackRunDone(sys, run, ReasonRolledBack, closing);
      RollbackRunMatched(sys, run, ReasonRolledBack, closing);
      SettledMatched(sys, RollbackRun(sys, run, ReasonRolledBack, closing), closing.finishFault, RolledBack);
      RollbackRunEnds(sys, run, ReasonRolledBack, closing);
    }
  }

  lemma RecoverEntryMatched(sys: System, entry: Record, records: seq<Record>, rescue: Rescue)
    requires Durable(sys) && Open(sys.journal).Keys == {entry.ref}
    ensures var turn := RecoverEntry(sys, entry, records, rescue);
      turn.sys.memory == sys.memory && !Misordered(turn.outcome)
  {
    hide Durable, Open, RollbackRun, CommitRun, WriteReceipts, ValidApplyReceipt, ValidVerification, RebuiltReceipt;
    var run := Rebuilt(entry);
    var receipt := RebuiltReceipt(records, entry);
    var applied := run.(receipt := Some(receipt));
    RollbackRunMatched(sys, run, ReasonRecoveryRollback, rescue.closing);
    RollbackRunMatched(sys, applied, ReasonRecoveryRollback, rescue.closing);
    if Confirms(records, entry, rescue) {
      var event := Reverified(receipt.ownership, receipt.appliedDigest);
      ReverifiedKeeps(sys, event);
      WriteReceiptsKeeps(sys.Log(event), applied, rescue.verify.value, rescue.first, rescue.second);
      ReceiptsMatched(sys.Log(event), applied, rescue.verify.value, rescue.first, rescue.second);
      var lined := WriteReceipts(sys.Log(event), applied, rescue.verify.value, rescue.first, rescue.second);
      CommitRunMatched(lined.sys, applied, ReasonRecoveryCommit, rescue.closing);
    }
  }

  lemma RecoverMatched(sys: System, env: RecoverEnv)
    requires Good(sys) && Matched(sys.memory, sys.journal)
    ensures var turn := Recover(sys, env); Matched(turn.sys.memory, turn.sys.journal) && !Misordered(turn.outcome)
  {
    hide Durable, Open, RecoverEntry, InFlight, Facts, Script;
    if Open(sys.journal) != map[] && !sys.memory.Active() {
      BoundedOfGood(sys);
      OneInFlight(sys.journal);
      var ref :| ref in Open(sys.journal) && Open(sys.journal).Keys == {ref}
          && InFlight(Open(sys.journal)) == [Open(sys.journal)[ref]];
      if env.rescues != [] {
        RecoverEntryMatched(sys, Open(sys.journal)[ref], sys.journal, env.rescues[0]);
        var turn := RecoverEntry(sys, Open(sys.journal)[ref], sys.journal, env.rescues[0]);
        assert RecoverEntries(sys, InFlight(Open(sys.journal)), sys.journal, env.rescues) == turn;
      }
    }
  }

  /**
    From a matched state, every call under every fault is taken in order, and leaves memory and journal
    matched if and only if it does not split them.
  */
  lemma PerformMatched(sys: System, action: Action)
    requires Good(sys) && Matched(sys.memory, sys.journal)
    ensures var turn := Perform(sys, action);
      && !Misordered(turn.outcome) && (Matched(turn.sys.memory, turn.sys.journal) <==> !Splits(sys, action))
  {
    hide Good, Matched, Begin, Capture, Simulate, Approve, DriverLifecycle.Reserve, Apply, Verify, RecordRun, Commit,
         Rollback, Recover;
    match action
    case DoBegin(ref, readable, at, fault) => BeginMatched(sys, ref, readable, at, fault);
    case DoCapture(scopeValid, capture) => CaptureMatched(sys, scopeValid, capture);
    case DoSimulate(operation, simulation, at, fault) => SimulateMatched(sys, operation, simulation, at, fault);
    case DoApprove(approval, at, fault) => ApproveMatched(sys, approval, at, fault);
    case DoReserve(key, now, storeFault, at, fault) => ReserveMatched(sys, key, now, storeFault, at, fault);
    case DoApply(capture, at, fault, receipt, at', fault') =>
      ApplyMatched(sys, capture, at, fault, receipt, at', fault');
    case DoVerify(verification) => VerifyMatched(sys, verification);
    case DoRecord(at, fault, first, second) => RecordMatched(sys, at, fault, first, second);
    case DoCommit(closing) => CommitMatched(sys, closing);
    case DoRollback(closing) => RollbackMatched(sys, closing);
    case DoRecover(env) => RecoverMatched(sys, env);
    case DoRestart => FreshMatched(sys.journal);
  }

  lemma FreshMatched(journal: seq<Record>)
    ensures Matched(FRESH, journal)
  {
  }

  // ---------------------------------------------------------------- every run

  ghost predicate AllMatched(world: World) {
    forall id | id in world.nodes :: Matched(world.nodes[id].memory, world.nodes[id].journal)
  }

  /** No call of the run splits the lifecycle it is made on, at the moment it is made. */
  ghost predicate NeverSplits(world: World, calls: seq<Call>)
    decreases |calls|
  {
    calls != [] ==>
      && (calls[0].node in world.nodes ==> !Splits(View(world, calls[0].node), calls[0].action))
      && NeverSplits(Move(world, calls[0].node, calls[0].action), calls[1..])
  }

  /** Memory and journal of every lifecycle match before, during and after the run. */
  ghost predicate AlwaysMatched(world: World, calls: seq<Call>)
    decreases |calls|
  {
    && AllMatched(world)
    && (calls != [] ==> AlwaysMatched(Move(world, calls[0].node, calls[0].action), calls[1..]))
  }

  lemma MoveMatched(world: World, id: nat, action: Action)
    requires Sound(world) && AllMatched(world)
    ensures AllMatched(Move(world, id, action)) <==> (id in world.nodes ==> !Splits(View(world, id), action))
  {
    hide Sound, Perform, Matched, Splits;
    if id in world.nodes {
      GoodNode(world, id);
      PerformMatched(View(world, id), action);
      PerformSelf(world, id, action);
      var after, moved := Perform(View(world, id), action).sys, Move(world, id, action);
      assert moved.nodes == world.nodes[id := Node(after.memory, after.journal)];
      assert AllMatched(moved) ==> Matched(moved.nodes[id].memory, moved.nodes[id].journal);
      forall other | other in moved.nodes && other != id
        ensures Matched(moved.nodes[other].memory, moved.nodes[other].journal)
      {
        assert other in world.nodes && moved.nodes[other] == world.nodes[other];
      }
    }
  }

  lemma PerformSelf(world: World, id: nat, action: Action)
    requires Sound(world) && id in world.nodes
    ensures Perform(View(world, id), action).sys.self == id
  {
    hide Good, Safe, Perform;
    PerformFair(View(world, id), action);
  }

  /** Memory and journal match throughout a run if and only if no call of the run splits them. */
  lemma {:induction false} RunMatchesExactly(world: World, calls: seq<Call>)
    requires Sound(world) && AllMatched(world)
    ensures AlwaysMatched(world, calls) <==> NeverSplits(world, calls)
    ensures NeverSplits(world, calls) ==> Sound(Play(world, calls)) && AllMatched(Play(world, calls))
    decreases |calls|
  {
    hide Sound, Move, AllMatched, Splits;
    if calls != [] {
      var id, action := calls[0].node, calls[0].action;
      MoveKeeps(world, id, action);
      MoveMatched(world, id, action);
      if AllMatched(Move(world, id, action)) {
        RunMatchesExactly(Move(world, id, action), calls[1..]);
      } else {
        NotAlways(Move(world, id, action), calls[1..]);
      }
    }
  }

  lemma NotAlways(world: World, calls: seq<Call>)
    requires !AllMatched(world)
    ensures !AlwaysMatched(world, calls)
  {
  }

  lemma GoodNode(world: World, id: nat)
    requires Sound(world) && id in world.nodes
    ensures Good(View(world, id))
  {
  }

  /**
    From empty journals: memory and journal correspond step for step in every state of a run if and only
    if no call of the run splits them; and then no further call, torn or not, is refused as active,
    inactive, out of order or for want of room.
  */
  lemma CorrespondenceExactly(world: World, calls: seq<Call>, id: nat, action: Action)
    requires Initial(world) && id in world.nodes
    ensures AlwaysMatched(world, calls) <==> NeverSplits(world, calls)
    ensures NeverSplits(world, calls) ==>
              var end := Play(world, calls);
              && id in end.nodes && Matched(end.nodes[id].memory, end.nodes[id].journal)
              && !Misordered(Perform(View(end, id), action).outcome)
  {
    hide Sound, Perform, Play, NeverSplits, AlwaysMatched, Splits;
    InitialSound(world);
    NodesStay(world, calls);
    RunMatchesExactly(world, calls);
    if NeverSplits(world, calls) {
      GoodNode(Play(world, calls), id);
      PerformMatched(View(Play(world, calls), id), action);
    }
  }

  lemma {:induction false} NodesStay(world: World, calls: seq<Call>)
    requires Sound(world)
    ensures Play(world, calls).nodes.Keys == world.nodes.Keys
    decreases |calls|
  {
    hide Sound, Perform;
    if calls != [] {
      var id, action := calls[0].node, calls[0].action;
      MoveKeeps(world, id, action);
      SelfStays(world, id, action);
      NodesStay(Move(world, id, action), calls[1..]);
    }
  }

  lemma SelfStays(world: World, id: nat, action: Action)
    requires Sound(world)
    ensures Move(world, id, action).nodes.Keys == world.nodes.Keys
  {
    hide Good, Safe, Perform;
    if id in world.nodes {
      PerformFair(View(world, id), action);
    }
  }

  /** With or without torn writes: 1024 records, the open entry's steps, and the finish that is being written. */
  lemma JournalStaysSmall(world: World, calls: seq<Call>, id: nat)
    requires Initial(world) && id in world.nodes
    ensures var end := Play(world, calls); id in end.nodes && |end.nodes[id].journal| + 1 <= 1032
  {
    hide Sound, Play, Good;
    InitialSound(world);
    NodesStay(world, calls);
    EveryRunIsSafe(world, calls);
    GoodNode(Play(world, calls), id);
    BoundedOfGood(View(Play(world, calls), id));
    BoundedSize(Play(world, calls).nodes[id].journal);
  }

  lemma BoundedSize(journal: seq<Record>)
    requires Bounded(journal)
    ensures |journal| + 1 <= 1032
  {
    hide Ordered, Open;
    OpenEntriesAreRecords(journal);
    if Open(journal) != map[] {
      var ref :| ref in Open(journal);
      assert Open(journal)[ref].step.Rank() <= 7;
    }
  }

  // ---------------------------------------------------------------- what a torn write costs

  /** After a torn approval the journal is one step ahead, and the retry is refused as out of order. */
  lemma TornApproval(sys: System, approval: Approval, at: nat, again: Approval, at': nat, fault: Fault)
    requires Good(sys) && Matched(sys.memory, sys.journal) && sys.memory.run.Some? && sys.memory.state.Simulated?
    requires ValidApproval(approval) && Binds(approval, sys.memory.run.value) && at != 0
    requires ValidApproval(again) && Binds(again, sys.memory.run.value) && at' != 0 && (fault.Healthy? || fault.Tears?)
    ensures var torn := Approve(sys, approval, at, Tears).sys;
      && torn.memory == sys.memory && !Matched(torn.memory, torn.journal)
      && Approve(torn, again, at', fault).outcome == Refused(JournalRefused(JournalOrder))
  {
    hide Good, Durable, Open, Append, WriteJournal, Script, ValidApproval, Binds, Facts, Splits, ValidRecord;
    var run := sys.memory.run.value;
    var record := run.JournalLine(KindAdvance, StepApprove, NoDigest, approval.digest, at);
    var retry := run.JournalLine(KindAdvance, StepApprove, NoDigest, again.digest, at');
    LiveFacts(sys);
    ApprovalLands(sys, approval, at, Tears);
    WriteMatched(sys, record, Tears);
    var torn := WriteJournal(sys, record, Tears).sys;
    WriteKeepsBounded(sys, record, Tears);
    ApprovalRecordValid(run, again, at');
    RefusedAsObjected(torn, retry, fault);
  }

  lemma WriteKeepsBounded(sys: System, record: Record, fault: Fault)
    requires Durable(sys) && Open(sys.journal).Keys <= {record.ref}
    ensures Bounded(WriteJournal(sys, record, fault).sys.journal)
  {
    hide Open, Append, Bounded, TracedEntry;
    if Append(sys.journal, record).Ok? {
      AppendBounded(sys.journal, record);
    }
  }

  lemma RefusedAsObjected(sys: System, record: Record, fault: Fault)
    requires Bounded(sys.journal) && ValidRecord(record) && Objection(Open(sys.journal), record).Some?
    requires fault.Healthy? || fault.Tears?
    ensures WriteJournal(sys, record, fault)
              == Turn(sys, Refused(JournalRefused(Objection(Open(sys.journal), record).value)))
  {
    hide Open, Bounded, ValidRecord, Objection;
    BoundedSize(sys.journal);
  }

  lemma ApprovalRecordValid(run: Run, approval: Approval, at: nat)
    requires Facts(run, 3) && ValidApproval(approval)
    ensures ValidRecord(run.JournalLine(KindAdvance, StepApprove, NoDigest, approval.digest, at)) <==> at != 0
  {
  }

  /** A finish that took effect but was reported as failed: the run lives on in memory only. */
  ghost predicate Torn(sys: System) {
    sys.memory.run.Some? && sys.memory.state.Failed? && Open(sys.journal) == map[]
  }

  lemma TornRollback(sys: System, closing: Closing)
    requires Good(sys) && sys.memory.Active()
    requires Rollback(sys, closing.(finishFault := Healthy)).outcome.Done?
    ensures Torn(Rollback(sys, closing.(finishFault := Tears)).sys)
  {
    hide Durable, Open, Append, WriteRelease, RevertRun, Facts, Script;
    var run := sys.memory.run.value;
    RollbackRunKeeps(sys, run, ReasonRolledBack, closing.(finishFault := Tears));
    RollbackRunKeeps(sys, run, ReasonRolledBack, closing.(finishFault := Healthy));
    RevertIgnoresFinish(sys, run, closing);
  }

  lemma RevertIgnoresFinish(sys: System, run: Run, closing: Closing)
    ensures RevertRun(sys, run, ReasonRolledBack, closing.(finishFault := Tears))
              == RevertRun(sys, run, ReasonRolledBack, closing.(finishFault := Healthy))
  {
    hide WriteReceipt, ValidReceipt, ValidRollbackReceipt;
  }

  lemma TornCommit(sys: System, closing: Closing)
    requires Good(sys) && sys.memory.Active()
    requires Commit(sys, closing.(finishFault := Healthy)).outcome.Done?
    ensures Torn(Commit(sys, closing.(finishFault := Tears)).sys)
  {
    hide Durable, Open, Append, WriteRelease, WriteReceipt, ValidReceipt, Facts, Script;
    var run := sys.memory.run.value;
    CommitRunKeeps(sys, run, ReasonApplied, closing.(finishFault := Tears));
    CommitRunKeeps(sys, run, ReasonApplied, closing.(finishFault := Healthy));
  }

  /** Until the process restarts, a torn lifecycle completes nothing: no step, no rollback, no recovery, no new plan. */
  lemma TornUntilRestart(sys: System, action: Action)
    requires Torn(sys) && !action.DoRestart?
    ensures var turn := Perform(sys, action);
      && (turn.outcome.Died? || Torn(turn.sys)) && !turn.outcome.Done? && !turn.outcome.Clean?
  {
    hide RollbackRun, Open;
    if action.DoRollback? {
      TornRollbackFails(sys, action.closing);
    }
  }

  lemma TornRollbackFails(sys: System, closing: Closing)
    requires Torn(sys)
    ensures var turn := RollbackRun(sys, sys.memory.run.value, ReasonRolledBack, closing);
      turn.sys.journal == sys.journal && turn.sys.memory == sys.memory && !turn.outcome.Done? && !turn.outcome.Clean?
  {
    hide Open, WriteReceipt, WriteRelease, WriteJournal, RevertRun;
    var run := sys.memory.run.value;
    RevertLeaves(sys, run, closing);
    var reverted := RevertRun(sys, run, ReasonRolledBack, closing);
    ReleaseLeaves(reverted.sys, run.Token(), reverted.result, closing.releaseFault);
    var released :=
      if run.reservation.None? then Turn(reverted.sys, Done)
      else WriteRelease(reverted.sys, run.Token(), StepRollback, reverted.result, closing.releaseFault);
    FinishWithoutEntry(
      released.sys, run.JournalLine(KindFinish, StepRollback, run.Receipt().ownership, reverted.restored, closing.at),
      closing.finishFault);
  }

  lemma RevertLeaves(sys: System, run: Run, closing: Closing)
    ensures var reverted := RevertRun(sys, run, ReasonRolledBack, closing);
      reverted.sys.journal == sys.journal && reverted.sys.memory == sys.memory && !reverted.outcome.Clean?
  {
    hide AppendReceipt, ValidReceipt, ValidRollbackReceipt;
  }

  lemma ReleaseLeaves(sys: System, token: ReservationToken, result: Digest, fault: Fault)
    ensures var turn := WriteRelease(sys, token, StepRollback, result, fault);
      turn.sys.journal == sys.journal && turn.sys.memory == sys.memory && !turn.outcome.Clean?
  {
    hide Release;
  }

  lemma FinishWithoutEntry(sys: System, record: Record, fault: Fault)
    requires Open(sys.journal) == map[] && record.kind.KindFinish?
    ensures var turn := WriteJournal(sys, record, fault); turn.sys == sys && !turn.outcome.Done? && !turn.outcome.Clean?
  {
    hide Open, ValidRecord;
  }
}
