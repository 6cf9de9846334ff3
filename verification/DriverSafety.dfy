/**
  Safety over every interleaving of any number of lifecycles and restarts that share one
  reservation ledger (agent/driver/lifecycle.go, agent/driver/reservation.go).
*/
module DriverSafety {
  import opened Common
  import opened DriverContract
  import opened DriverJournal
  import opened DriverReservation
  import opened DriverLifecycle
  import opened DriverInvariant

  // ---------------------------------------------------------------- many lifecycles, one ledger

  datatype Node = Node(memory: Memory, journal: seq<Record>)

  datatype World = World(nodes: map<nat, Node>, ledger: Ledger, receipts: seq<Receipt>, log: seq<Entry>)

  function View(world: World, id: nat): System
    requires id in world.nodes
  {
    System(id, world.nodes[id].memory, world.nodes[id].journal, world.ledger, world.receipts, world.log)
  }

  function Put(world: World, sys: System): World {
    World(world.nodes[sys.self := Node(sys.memory, sys.journal)], sys.ledger, sys.receipts, sys.log)
  }

  /** One call (or crash) of one lifecycle; a call on a lifecycle that does not exist changes nothing. */
  ghost function Move(world: World, id: nat, action: Action): World {
    if id in world.nodes then Put(world, Perform(View(world, id), action).sys) else world
  }

  datatype Call = Call(node: nat, action: Action)

  ghost function Play(world: World, calls: seq<Call>): World
    decreases |calls|
  {
    if calls == [] then world else Play(Move(world, calls[0].node, calls[0].action), calls[1..])
  }

  /** Fresh lifecycles over empty journals and a store that has booked nothing. */
  predicate Initial(world: World) {
    && (forall id | id in world.nodes :: world.nodes[id] == Node(FRESH, []))
    && world.ledger.bookings == map[] && world.log == []
  }

  // ---------------------------------------------------------------- what must never happen

  /** The node's current run did exactly what an apply call presupposes, in that order. */
  ghost predicate Authorized(trail: seq<Event>, request: ApplyRequest) {
    && |trail| == 6
    && trail[0] == Began(request.ref)
    && trail[1].CapturedHost?
    && trail[2].SimulatedPlan? && trail[2].operation == request.operation && trail[2].before == trail[1].digest
    && request.operation == Operation(request.ref.operationId, request.target)
    && trail[3].BoundApproval? && ValidApproval(trail[3].approval)
    && trail[3].approval.planId == request.ref.planId && trail[3].approval.planRevision == request.ref.planRevision
    && trail[3].approval.operationId == request.ref.operationId && trail[3].approval.target == request.target
    && trail[4] == Granted(request.reservation) && ValidReservationToken(request.reservation)
    && request.reservation.key.planId == request.ref.planId
        && request.reservation.key.planRevision == request.ref.planRevision
    && trail[5] == HostUnchanged(trail[1].digest)
  }

  predicate Calls(log: seq<Entry>, i: int) {
    0 <= i < |log| && log[i].event.CalledApply?
  }

  predicate Grants(log: seq<Entry>, i: int) {
    0 <= i < |log| && log[i].event.Granted?
  }

  ghost predicate ApplyAuthorized(log: seq<Entry>) {
    forall i | Calls(log, i) :: Authorized(Trail(log[..i], log[i].node), log[i].event.request)
  }

  ghost predicate ApplyBooked(ledger: Ledger, log: seq<Entry>) {
    forall i | Calls(log, i) :: log[i].event.request.ref.planId in ledger.bookings
  }

  ghost predicate ApplyOnce(log: seq<Entry>) {
    forall i, j | Calls(log, i) && Calls(log, j) && i < j ::
        log[i].event.request.ref.planId != log[j].event.request.ref.planId
  }

  /** Granted plan revisions strictly increase, policy revisions never decrease, and the floors bound them all. */
  ghost predicate GrantsRise(ledger: Ledger, log: seq<Entry>) {
    && (forall i | Grants(log, i) ::
          && log[i].event.token.key.planRevision <= ledger.floor.planRevision
          && log[i].event.token.key.policyRevision <= ledger.floor.policyRevision)
    && (forall i, j | Grants(log, i) && Grants(log, j) && i < j ::
          && log[i].event.token.key.planRevision < log[j].event.token.key.planRevision
          && log[i].event.token.key.policyRevision <= log[j].event.token.key.policyRevision)
  }

  /** The driver confirmed the host for exactly the run and the digest a commit is released with. */
  ghost predicate Evidence(event: Event, planId: string, booking: Booking) {
    && (event.VerifiedHost? || event.Reverified?)
    && booking.result.ReceiptHash?
    && var line := booking.result.receipt;
       && line.kind.CommitKind? && line.ref.planId == planId
       && line.ownership == event.ownership && line.digest == event.digest
       && line.ownership == OwnershipTokenFor(line.ref, line.target, booking.token.token)
  }

  ghost predicate Proven(log: seq<Entry>, planId: string, booking: Booking) {
    exists i :: 0 <= i < |log| && Evidence(log[i].event, planId, booking)
  }

  ghost predicate CommitsProven(ledger: Ledger, log: seq<Entry>) {
    forall id | id in ledger.bookings ::
      ledger.bookings[id].released && ledger.bookings[id].terminal.StepCommit? ==> Proven(log, id, ledger.bookings[id])
  }

  ghost predicate Safe(ledger: Ledger, log: seq<Entry>) {
    ApplyAuthorized(log) && ApplyBooked(ledger, log) && ApplyOnce(log) && GrantsRise(ledger, log)
        && CommitsProven(ledger, log)
  }

  predicate Armed(memory: Memory) {
    memory.state.Reserved? && memory.run.Some?
  }

  /** A run that may still call the driver belongs to a plan the driver has not been called for. */
  ghost predicate Unspent(memory: Memory, log: seq<Entry>) {
    Armed(memory) ==> forall i | Calls(log, i) :: log[i].event.request.ref.planId != memory.run.value.ref.planId
  }

  ghost predicate Sound(world: World) {
    && (forall id | id in world.nodes :: Good(View(world, id)) && Unspent(world.nodes[id].memory, world.log))
    && (forall a, b | a in world.nodes && b in world.nodes && a != b && Armed(world.nodes[a].memory)
        && Armed(world.nodes[b].memory) ::
          world.nodes[a].memory.run.value.ref.planId != world.nodes[b].memory.run.value.ref.planId)
    && Safe(world.ledger, world.log)
  }

  // ---------------------------------------------------------------- what one call adds

  /** Everything but Reserve and Apply: no grant, no apply call, no new booking. */
  ghost predicate Quiet(before: System, after: System) {
    && after.self == before.self && before.log <= after.log
    && (forall i | |before.log| <= i < |after.log| ::
          after.log[i].node == before.self && !after.log[i].event.CalledApply? && !after.log[i].event.Granted?)
    && (Armed(after.memory) ==> after.memory == before.memory)
    && after.ledger.floor == before.ledger.floor && after.ledger.bookings.Keys == before.ledger.bookings.Keys
    && Extends(before.ledger, after.ledger)
  }

  lemma WriteJournalQuiet(sys: System, record: Record, fault: Fault)
    ensures var turn := WriteJournal(sys, record, fault);
      turn.sys == sys.(journal := turn.sys.journal) && !turn.outcome.Clean?
  {
  }

  lemma BeginQuiet(sys: System, ref: PlanRef, readable: bool, at: nat, fault: Fault)
    ensures Quiet(sys, Begin(sys, ref, readable, at, fault).sys)
        && Begin(sys, ref, readable, at, fault).sys.ledger == sys.ledger
  {
    hide WriteJournal, ValidRef, Open;
    WriteJournalQuiet(sys.Log(Began(ref)), NewRun(ref).JournalLine(KindBegin, StepCapture, NoDigest, NoDigest, at),
                      fault);
  }

  lemma CaptureQuiet(sys: System, scopeValid: bool, reply: Reply<Digest>)
    ensures Quiet(sys, Capture(sys, scopeValid, reply).sys) && Capture(sys, scopeValid, reply).sys.ledger == sys.ledger
  {
  }

  lemma SimulateQuiet(sys: System, operation: Option<Operation>, reply: Reply<Simulation>, at: nat, fault: Fault)
    ensures Quiet(sys, Simulate(sys, operation, reply, at, fault).sys)
        && Simulate(sys, operation, reply, at, fault).sys.ledger == sys.ledger
  {
    hide WriteJournal, Fits, ValidTarget;
    if sys.memory.run.Some? && operation.Some? && reply.Answers? {
      var next := Predicted(sys.memory.run.value, operation.value, reply.value);
      WriteJournalQuiet(
        sys.Log(SimulatedPlan(operation.value, reply.value.snapshotDigest,
                              reply.value.afterDigest)).With(Captured, next),
        next.JournalLine(KindAdvance, StepSimulate, NoDigest, reply.value.afterDigest, at), fault);
    }
  }

  lemma ApproveQuiet(sys: System, approval: Approval, at: nat, fault: Fault)
    ensures Quiet(sys, Approve(sys, approval, at, fault).sys)
        && Approve(sys, approval, at, fault).sys.ledger == sys.ledger
  {
    hide WriteJournal, ValidApproval, Binds;
    if sys.memory.run.Some? {
      WriteJournalQuiet(sys, sys.memory.run.value.JournalLine(KindAdvance, StepApprove, NoDigest, approval.digest, at),
                        fault);
    }
  }

  lemma VerifyQuiet(sys: System, reply: Reply<Verification>)
    ensures Quiet(sys, Verify(sys, reply).sys) && Verify(sys, reply).sys.ledger == sys.ledger
  {
    hide ValidVerification;
  }

  lemma WriteReceiptQuiet(sys: System, receipt: Receipt, fault: Fault)
    ensures var turn := WriteReceipt(sys, receipt, fault);
      turn.sys == sys.(receipts := turn.sys.receipts) && !turn.outcome.Clean?
  {
  }

  lemma RecordQuiet(sys: System, at: nat, fault: Fault, first: Fault, second: Fault)
    ensures Quiet(sys, RecordRun(sys, at, fault, first, second).sys)
        && RecordRun(sys, at, fault, first, second).sys.ledger == sys.ledger
  {
    hide WriteJournal, WriteReceipt;
    if sys.memory.run.Some? {
      var run := sys.memory.run.value;
      var record := run.JournalLine(KindAdvance, StepRecord, run.Receipt().ownership, run.Receipt().appliedDigest, at);
      WriteJournalQuiet(sys, record, fault);
      var written := WriteJournal(sys, record, fault);
      WriteReceiptQuiet(written.sys, ApplyLine(run.Receipt()), first);
      WriteReceiptQuiet(WriteReceipt(written.sys, ApplyLine(run.Receipt()), first).sys,
                        VerifyLine(run.Receipt(), run.Verification()), second);
    }
  }

  lemma ReleaseQuiet(sys: System, token: ReservationToken, terminal: Step, result: Digest, fault: Fault)
    requires ValidLedger(sys.ledger)
    ensures var turn := WriteRelease(sys, token, terminal, result, fault);
      && turn.sys == sys.(ledger := turn.sys.ledger) && ValidLedger(turn.sys.ledger) && !turn.outcome.Clean?
      && turn.sys.ledger.floor == sys.ledger.floor && turn.sys.ledger.bookings.Keys == sys.ledger.bookings.Keys
      && Extends(sys.ledger, turn.sys.ledger)
      && (turn.sys.ledger != sys.ledger ==>
            && token.key.planId in sys.ledger.bookings && sys.ledger.bookings[token.key.planId].token.key == token.key
            && turn.sys.ledger.bookings == sys.ledger.bookings[token.key.planId :=
                 Booking(sys.ledger.bookings[token.key.planId].token, true, terminal, result)])
  {
    hide Release;
    ReleaseExtends(sys.ledger, token, terminal, result);
  }

  // ---------------------------------------------------------------- closing a run

  /** A close that changes the ledger releases the run's own booking with `terminal` and `result`. */
  ghost predicate Releases(before: System, after: System, token: ReservationToken, terminal: Step, result: Digest) {
    && after.self == before.self && after.memory == before.memory && after.log == before.log
    && after.ledger.floor == before.ledger.floor && after.ledger.bookings.Keys == before.ledger.bookings.Keys
    && Extends(before.ledger, after.ledger)
    && (after.ledger != before.ledger ==>
          && token.key.planId in before.ledger.bookings
              && before.ledger.bookings[token.key.planId].token.key == token.key
          && after.ledger.bookings == before.ledger.bookings[token.key.planId :=
               Booking(before.ledger.bookings[token.key.planId].token, true, terminal, result)])
  }

  lemma CommitRunReleases(sys: System, run: Run, reason: ReasonCode, closing: Closing)
    requires ValidLedger(sys.ledger)
    ensures Releases(sys, CommitRun(sys, run, reason, closing).sys, run.Token(), StepCommit,
                     ReceiptHash(CommitLine(run.Receipt(), reason, closing.now)))
  {
    hide WriteJournal, WriteRelease, WriteReceipt, ValidReceipt;
    var line := CommitLine(run.Receipt(), reason, closing.now);
    WriteReceiptQuiet(sys, line, closing.receiptFault);
    var received := WriteReceipt(sys, line, closing.receiptFault);
    ReleaseQuiet(received.sys, run.Token(), StepCommit, ReceiptHash(line), closing.releaseFault);
    var released := WriteRelease(received.sys, run.Token(), StepCommit, ReceiptHash(line), closing.releaseFault);
    WriteJournalQuiet(released.sys,
                      run.JournalLine(KindFinish, StepCommit, run.Receipt().ownership, run.Receipt().appliedDigest,
                                      closing.at),
                      closing.finishFault);
  }

  lemma RevertRunQuiet(sys: System, run: Run, reason: ReasonCode, closing: Closing)
    ensures var reverted := RevertRun(sys, run, reason, closing);
      reverted.sys == sys.(receipts := reverted.sys.receipts)
  {
    hide WriteReceipt, ValidReceipt, ValidRollbackReceipt;
    if closing.driver.Answers? {
      WriteReceiptQuiet(sys, RollbackLine(closing.driver.value, reason), closing.receiptFault);
    }
  }

  lemma RollbackRunReleases(sys: System, run: Run, reason: ReasonCode, closing: Closing)
    requires ValidLedger(sys.ledger)
    ensures Releases(sys, RollbackRun(sys, run, reason, closing).sys, run.Token(), StepRollback,
                     RevertRun(sys, run, reason, closing).result)
  {
    hide WriteJournal, WriteRelease, RevertRun;
    RevertRunQuiet(sys, run, reason, closing);
    var reverted := RevertRun(sys, run, reason, closing);
    ReleaseQuiet(reverted.sys, run.Token(), StepRollback, reverted.result, closing.releaseFault);
    var released :=
      if run.reservation.None? then Turn(reverted.sys, Done)
      else WriteRelease(reverted.sys, run.Token(), StepRollback, reverted.result, closing.releaseFault);
    WriteJournalQuiet(released.sys,
                      run.JournalLine(KindFinish, StepRollback, run.Receipt().ownership, reverted.restored, closing.at),
                      closing.finishFault);
  }

  /** Whatever a call released as COMMIT was proven by then. */
  ghost predicate Shows(before: Ledger, after: Ledger, log: seq<Entry>) {
    forall id | id in before.bookings && id in after.bookings ::
      after.bookings[id] != before.bookings[id] && after.bookings[id].terminal.StepCommit? ==>
          Proven(log, id, after.bookings[id])
  }

  /** Every event of the current run stands in the log. */
  lemma {:induction false} TrailInLog(log: seq<Entry>, node: nat, k: nat) returns (i: nat)
    requires k < |Trail(log, node)|
    ensures i < |log| && log[i].event == Trail(log, node)[k]
  {
    var rest := log[..|log| - 1];
    var last := log[|log| - 1];
    if last.node != node || last.event.Reverified? {
      i := TrailInLog(rest, node, k);
    } else if last.event.Began? || k == |Trail(rest, node)| {
      i := |log| - 1;
    } else {
      i := TrailInLog(rest, node, k);
    }
  }

  lemma NothingIsQuiet(sys: System)
    ensures Quiet(sys, sys) && Shows(sys.ledger, sys.ledger, sys.log)
  {
  }

  lemma CommitRunQuiet(sys: System, run: Run, reason: ReasonCode, closing: Closing)
    requires ValidLedger(sys.ledger)
    ensures var after := CommitRun(sys, run, reason, closing).sys; Quiet(sys, after) && after.memory == sys.memory
  {
    hide CommitRun, ValidLedger, Extends;
    CommitRunReleases(sys, run, reason, closing);
  }

  /** A rollback proves nothing and commits nothing. */
  lemma RollbackRunQuiet(sys: System, run: Run, reason: ReasonCode, closing: Closing)
    requires ValidLedger(sys.ledger)
    ensures var after := RollbackRun(sys, run, reason, closing).sys;
      Quiet(sys, after) && Shows(sys.ledger, after.ledger, after.log) && after.memory == sys.memory
  {
    hide RollbackRun, RevertRun, ValidLedger;
    RollbackRunReleases(sys, run, reason, closing);
  }

  lemma BookingToken(ledger: Ledger, id: string)
    requires ValidLedger(ledger) && id in ledger.bookings
    ensures ledger.bookings[id].token.token == ReservationHash(ledger.bookings[id].token.key)
  {
  }

  lemma VerifiedEvidence(run: Run, booking: Booking, now: nat)
    requires Facts(run, 9) && booking.token.token == ReservationHash(run.Token().key)
    requires booking.result == ReceiptHash(CommitLine(run.Receipt(), ReasonApplied, now))
    ensures Evidence(Script(run)[8], run.Token().key.planId, booking)
  {
  }

  lemma CommitShows(sys: System, closing: Closing)
    requires Good(sys) && sys.memory.run.Some? && sys.memory.state.Recorded?
    ensures var turn := CommitRun(sys, sys.memory.run.value, ReasonApplied, closing);
      Shows(sys.ledger, turn.sys.ledger, turn.sys.log)
  {
    hide Good, Durable, Open, CommitRun, Facts, Script, Extends, ValidLedger, Evidence;
    var run := sys.memory.run.value;
    LiveFacts(sys);
    CommitRunReleases(sys, run, ReasonApplied, closing);
    var i := TrailInLog(sys.log, sys.self, 8);
    var after := CommitRun(sys, run, ReasonApplied, closing).sys;
    if after.ledger != sys.ledger {
      var id := run.Token().key.planId;
      BookingToken(sys.ledger, id);
      VerifiedEvidence(run, after.ledger.bookings[id], closing.now);
      assert Evidence(after.log[i].event, id, after.ledger.bookings[id]);
    }
  }

  lemma SettledQuiet(before: System, turn: Turn, next: State)
    requires Quiet(before, turn.sys) && Shows(before.ledger, turn.sys.ledger, turn.sys.log) && !next.Reserved?
    ensures var after := Settle(turn, next, Failed).sys;
      Quiet(before, after) && Shows(before.ledger, after.ledger, after.log)
  {
    hide Shows, Extends;
  }

  lemma CommitQuiet(sys: System, closing: Closing)
    requires Good(sys)
    ensures var after := Commit(sys, closing).sys; Quiet(sys, after) && Shows(sys.ledger, after.ledger, after.log)
  {
    hide Good, CommitRun, Quiet, Shows, Settle;
    NothingIsQuiet(sys);
    if sys.memory.run.Some? && sys.memory.state.Recorded? {
      LedgerOfGood(sys);
      CommitRunQuiet(sys, sys.memory.run.value, ReasonApplied, closing);
      CommitShows(sys, closing);
      SettledQuiet(sys, CommitRun(sys, sys.memory.run.value, ReasonApplied, closing), Committed);
    }
  }

  lemma LedgerOfGood(sys: System)
    requires Good(sys)
    ensures ValidLedger(sys.ledger)
  {
  }

  lemma RollbackQuiet(sys: System, closing: Closing)
    requires Good(sys)
    ensures var after := Rollback(sys, closing).sys; Quiet(sys, after) && Shows(sys.ledger, after.ledger, after.log)
  {
    hide Good, RollbackRun, Quiet, Shows, Settle;
    LedgerOfGood(sys);
    NothingIsQuiet(sys);
    if sys.memory.run.Some? {
      RollbackRunQuiet(sys, sys.memory.run.value, ReasonRolledBack, closing);
      SettledQuiet(sys, RollbackRun(sys, sys.memory.run.value, ReasonRolledBack, closing), RolledBack);
    }
  }

  // ---------------------------------------------------------------- recovery

  lemma RecoverEntryShows(sys: System, entry: Record, records: seq<Record>, rescue: Rescue)
    requires entry.reservation.planId == entry.ref.planId || entry.reservation == NO_KEY
    requires ValidLedger(sys.ledger)
    ensures var after := RecoverEntry(sys, entry, records, rescue).sys;
      && Quiet(sys, after) && Shows(sys.ledger, after.ledger, after.log) && after.memory == sys.memory
  {
    hide RollbackRun, CommitRun, WriteReceipts, RebuiltReceipt, ValidLedger, ValidApplyReceipt, ValidVerification,
         Quiet, Shows;
    var run := Rebuilt(entry);
    var receipt := RebuiltReceipt(records, entry);
    var applied := run.(receipt := Some(receipt));
    NothingIsQuiet(sys);
    RollbackRunQuiet(sys, run, ReasonRecoveryRollback, rescue.closing);
    RollbackRunQuiet(sys, applied, ReasonRecoveryRollback, rescue.closing);
    if Confirms(records, entry, rescue) && entry.reservation != NO_KEY {
      RecoveredCommitShows(sys, entry, records, rescue);
    }
  }

  lemma RecoveredCommitShows(sys: System, entry: Record, records: seq<Record>, rescue: Rescue)
    requires ValidLedger(sys.ledger) && rescue.verify.Answers?
    requires entry.reservation.planId == entry.ref.planId && entry.reservation != NO_KEY
    ensures var receipt := RebuiltReceipt(records, entry);
      var applied := Rebuilt(entry).(receipt := Some(receipt));
      var lined := WriteReceipts(sys.Log(Reverified(receipt.ownership, receipt.appliedDigest)), applied,
                                 rescue.verify.value,
                                 rescue.first, rescue.second);
      var after := (if lined.outcome.Done? then CommitRun(lined.sys, applied, ReasonRecoveryCommit, rescue.closing)
                    else lined).sys;
      && Quiet(sys, after) && Shows(sys.ledger, after.ledger, after.log) && after.memory == sys.memory
  {
    hide CommitRun, WriteReceipt, RebuiltReceipt;
    var receipt := RebuiltReceipt(records, entry);
    var applied := Rebuilt(entry).(receipt := Some(receipt));
    var noted := sys.Log(Reverified(receipt.ownership, receipt.appliedDigest));
    WriteReceiptQuiet(noted, ApplyLine(receipt), rescue.first);
    WriteReceiptQuiet(WriteReceipt(noted, ApplyLine(receipt), rescue.first).sys,
                      VerifyLine(receipt, rescue.verify.value), rescue.second);
    var lined := WriteReceipts(noted, applied, rescue.verify.value, rescue.first, rescue.second);
    CommitRunReleases(lined.sys, applied, ReasonRecoveryCommit, rescue.closing);
    var after := (if lined.outcome.Done? then CommitRun(lined.sys, applied, ReasonRecoveryCommit, rescue.closing)
                  else lined).sys;
    if after.ledger != sys.ledger {
      var id := entry.reservation.planId;
      RebuiltEvidence(records, entry, after.ledger.bookings[id], rescue.closing.now);
      assert Evidence(after.log[|sys.log|].event, id, after.ledger.bookings[id]);
    }
  }

  lemma RebuiltEvidence(records: seq<Record>, entry: Record, booking: Booking, now: nat)
    requires booking.token.token == ReservationHash(entry.reservation) && entry.reservation.planId == entry.ref.planId
    requires booking.result == ReceiptHash(CommitLine(RebuiltReceipt(records, entry), ReasonRecoveryCommit, now))
    ensures var receipt := RebuiltReceipt(records, entry);
      Evidence(Reverified(receipt.ownership, receipt.appliedDigest), entry.reservation.planId, booking)
  {
  }

  lemma RecoverQuiet(sys: System, env: RecoverEnv)
    requires Good(sys)
    ensures var after := Recover(sys, env).sys; Quiet(sys, after) && Shows(sys.ledger, after.ledger, after.log)
  {
    hide Good, Open, RecoverEntry, InFlight, Shows, Extends;
    NothingIsQuiet(sys);
    if Open(sys.journal) != map[] && !sys.memory.Active() {
      BoundedOfGood(sys);
      OneInFlight(sys.journal);
      var ref :| ref in Open(sys.journal) && Open(sys.journal).Keys == {ref}
          && InFlight(Open(sys.journal)) == [Open(sys.journal)[ref]];
      if env.rescues != [] {
        EntryKey(sys, ref);
        LedgerOfGood(sys);
        RecoverEntryShows(sys, Open(sys.journal)[ref], sys.journal, env.rescues[0]);
        var turn := RecoverEntry(sys, Open(sys.journal)[ref], sys.journal, env.rescues[0]);
        assert RecoverEntries(sys, InFlight(Open(sys.journal)), sys.journal, env.rescues) == turn;
      }
    }
  }

  lemma EntryKey(sys: System, ref: PlanRef)
    requires Good(sys) && ref in Open(sys.journal)
    ensures var entry := Open(sys.journal)[ref];
      entry.reservation.planId == entry.ref.planId || entry.reservation == NO_KEY
  {
    hide Bounded, Open, LastDigest;
  }

  // ---------------------------------------------------------------- reserve and apply

  /** Reserve grants at most once, and exactly when the store takes a new booking for the run's plan. */
  ghost predicate Grant(before: System, after: System) {
    && after.self == before.self
    && (after.log == before.log ==> after.ledger == before.ledger && !Armed(after.memory))
    && (after.log != before.log ==>
          exists token: ReservationToken ::
            && after.log == before.log + [Entry(before.self, Granted(token))]
            && before.memory.run.Some? && token.key.planId == before.memory.run.value.ref.planId
            && token.key.planId !in before.ledger.bookings
            && after.ledger.bookings
                == before.ledger.bookings[token.key.planId := Booking(token, false, StepNone, NoDigest)]
            && before.ledger.floor.planRevision < token.key.planRevision == after.ledger.floor.planRevision
            && before.ledger.floor.policyRevision <= token.key.policyRevision == after.ledger.floor.policyRevision
            && (Armed(after.memory) ==> after.memory.run.value.ref == before.memory.run.value.ref))
  }

  lemma ReserveGrants(sys: System, key: ReservationKey, now: nat, storeFault: Fault, at: nat, fault: Fault)
    requires !Armed(sys.memory)
    ensures Grant(sys, DriverLifecycle.Reserve(sys, key, now, storeFault, at, fault).sys)
  {
    hide WriteJournal, ValidKey;
    var after := DriverLifecycle.Reserve(sys, key, now, storeFault, at, fault).sys;
    if Require(sys.memory, Approved) == None {
      var (ledger, reply) := DriverReservation.Reserve(sys.ledger, key, now);
      if reply.Ok? && reply.value.Fresh? {
        var token := reply.value.token;
        var next := sys.memory.run.value.(reservation := Some(token));
        WriteJournalQuiet(sys.(ledger := ledger).Log(Granted(token)).With(Approved, next),
                          next.JournalLine(KindAdvance, StepReserve, NoDigest, token.token, at), fault);
        assert after.log != sys.log ==> after.log == sys.log + [Entry(sys.self, Granted(token))];
      }
    }
  }

  /** Apply calls the driver at most once, only from Reserved, with the run's own request, and disarms the run. */
  ghost predicate Strike(before: System, after: System) {
    && after.self == before.self && after.ledger == before.ledger && !Armed(after.memory)
    && before.log <= after.log
    && (forall i | |before.log| <= i < |after.log| :: after.log[i].node == before.self && !after.log[i].event.Granted?)
    && (forall i | |before.log| <= i < |after.log| ::
          after.log[i].event.CalledApply? ==>
            && i == |before.log| + 1 && Armed(before.memory)
            && after.log[|before.log|].event == HostUnchanged(before.memory.run.value.digest)
            && after.log[i].event.request == RequestOf(before.memory.run.value))
  }

  lemma ApplyStrikes(sys: System, capture: Reply<Digest>, at: nat, fault: Fault, reply: Reply<ApplyReceipt>, at': nat,
                     fault': Fault)
    ensures Strike(sys, Apply(sys, capture, at, fault, reply, at', fault').sys)
  {
    hide JournalApply;
    if Require(sys.memory, Reserved) == None {
      JournalApplyStrikes(sys, at, fault, reply, at', fault');
    }
  }

  lemma JournalApplyStrikes(sys: System, at: nat, fault: Fault, reply: Reply<ApplyReceipt>, at': nat, fault': Fault)
    requires Armed(sys.memory)
    ensures Strike(sys, JournalApply(sys, sys.memory.run.value, at, fault, reply, at', fault').sys)
  {
    hide WriteJournal, ValidApplyReceipt, BoundTo, RequestOf;
    var run := sys.memory.run.value;
    var noted := sys.Log(HostUnchanged(run.digest));
    var record := run.JournalLine(KindAdvance, StepApply, NoDigest, run.digest, at);
    WriteJournalQuiet(noted, record, fault);
    var called := WriteJournal(noted, record, fault).sys.Log(CalledApply(RequestOf(run)));
    if reply.Answers? {
      var next := run.(receipt := Some(reply.value));
      WriteJournalQuiet(
        called.Log(AcceptedReceipt(reply.value)).With(Reserved, next),
        next.JournalLine(KindAdvance, StepVerify, reply.value.ownership, reply.value.appliedDigest, at'), fault');
    }
  }

  // ---------------------------------------------------------------- one call keeps the shared promises

  lemma QuietSafe(before: System, after: System)
    requires Safe(before.ledger, before.log) && Quiet(before, after) && Shows(before.ledger, after.ledger, after.log)
    ensures Safe(after.ledger, after.log)
  {
    hide Authorized, Trail, Proven;
    PrefixAuthorized(before.log, after.log);
    forall id | id in after.ledger.bookings && after.ledger.bookings[id].released
        && after.ledger.bookings[id].terminal.StepCommit?
      ensures Proven(after.log, id, after.ledger.bookings[id])
    {
      if after.ledger.bookings[id] == before.ledger.bookings[id] {
        StillProven(before.log, after.log, id, after.ledger.bookings[id]);
      }
    }
  }

  lemma StillProven(log: seq<Entry>, later: seq<Entry>, id: string, booking: Booking)
    requires log <= later && Proven(log, id, booking)
    ensures Proven(later, id, booking)
  {
    var i :| 0 <= i < |log| && Evidence(log[i].event, id, booking);
    assert Evidence(later[i].event, id, booking);
  }

  lemma PrefixAuthorized(log: seq<Entry>, later: seq<Entry>)
    requires ApplyAuthorized(log) && log <= later
    ensures forall i | Calls(later, i) && i < |log| ::
        Authorized(Trail(later[..i], later[i].node), later[i].event.request)
  {
    hide Authorized, Trail;
    forall i | Calls(later, i) && i < |log|
      ensures Authorized(Trail(later[..i], later[i].node), later[i].event.request)
    {
      assert Calls(log, i) && later[..i] == log[..i];
    }
  }

  lemma GrantSafe(before: System, after: System)
    requires Safe(before.ledger, before.log) && Grant(before, after)
    ensures Safe(after.ledger, after.log) && Extends(before.ledger, after.ledger) && before.log <= after.log
  {
    hide Authorized, Trail, Evidence;
    if after.log != before.log {
      PrefixAuthorized(before.log, after.log);
      forall id | id in after.ledger.bookings && after.ledger.bookings[id].released
          && after.ledger.bookings[id].terminal.StepCommit?
        ensures Proven(after.log, id, after.ledger.bookings[id])
      {
        StillProven(before.log, after.log, id, after.ledger.bookings[id]);
      }
    }
  }

  lemma ScriptAuthorizes(run: Run, ledger: Ledger)
    requires Facts(run, 5) && RunBooked(run, ledger)
    ensures Script(run)[5] == HostUnchanged(run.digest) && Authorized(Script(run)[..6], RequestOf(run))
    ensures run.ref.planId in ledger.bookings
  {
  }

  /** The heart of the matter: at the moment of the call the run's trail is exactly what authorizes it. */
  lemma ArmedIsAuthorized(sys: System)
    requires Good(sys) && Armed(sys.memory)
    ensures var run := sys.memory.run.value;
      && Authorized(Trail(sys.log + [Entry(sys.self, HostUnchanged(run.digest))], sys.self), RequestOf(run))
      && RequestOf(run).ref == run.ref && run.ref.planId in sys.ledger.bookings
  {
    hide Good, Durable, Open, Trail, Facts, Script, Authorized;
    var run := sys.memory.run.value;
    LiveFacts(sys);
    TrailSnoc(sys.log, Entry(sys.self, HostUnchanged(run.digest)), sys.self);
    ScriptGrows(run, 5);
    ScriptAuthorizes(run, sys.ledger);
  }

  lemma StrikeSafe(before: System, after: System)
    requires Safe(before.ledger, before.log) && Strike(before, after) && Good(before)
        && Unspent(before.memory, before.log)
    ensures Safe(after.ledger, after.log)
  {
    hide Authorized, Trail, Evidence, Good, RequestOf;
    PrefixAuthorized(before.log, after.log);
    if Armed(before.memory) {
      ArmedIsAuthorized(before);
      if |after.log| > |before.log| + 1 && after.log[|before.log| + 1].event.CalledApply? {
        assert after.log[..|before.log| + 1]
            == before.log + [Entry(before.self, HostUnchanged(before.memory.run.value.digest))];
      }
    }
    forall id | id in after.ledger.bookings && after.ledger.bookings[id].released
        && after.ledger.bookings[id].terminal.StepCommit?
      ensures Proven(after.log, id, after.ledger.bookings[id])
    {
      StillProven(before.log, after.log, id, after.ledger.bookings[id]);
    }
  }

  /** What one call of a lifecycle means for everybody else. */
  ghost predicate Fair(before: System, after: System) {
    && after.self == before.self && before.log <= after.log && Extends(before.ledger, after.ledger)
    && (forall i | |before.log| <= i < |after.log| :: after.log[i].node == before.self)
    && (Armed(after.memory) ==>
          after.memory == before.memory || after.memory.run.value.ref.planId !in before.ledger.bookings)
    && (forall i | |before.log| <= i && Calls(after.log, i) ::
          && Armed(before.memory) && !Armed(after.memory)
          && after.log[i].event.request.ref == before.memory.run.value.ref)
  }

  lemma QuietFair(before: System, after: System)
    requires Safe(before.ledger, before.log) && Quiet(before, after) && Shows(before.ledger, after.ledger, after.log)
    ensures Safe(after.ledger, after.log) && Fair(before, after)
  {
    hide Safe, Shows, Extends;
    QuietSafe(before, after);
  }

  lemma EarlyShows(before: System, after: System)
    requires Quiet(before, after) && after.ledger == before.ledger
    ensures Shows(before.ledger, after.ledger, after.log)
  {
  }

  lemma GrantFair(before: System, after: System)
    requires Safe(before.ledger, before.log) && Grant(before, after)
    ensures Safe(after.ledger, after.log) && Fair(before, after)
  {
    hide Safe, Extends;
    GrantSafe(before, after);
  }

  lemma StrikeFair(before: System, after: System)
    requires Safe(before.ledger, before.log) && Strike(before, after) && Good(before)
        && Unspent(before.memory, before.log)
    ensures Safe(after.ledger, after.log) && Fair(before, after)
  {
    hide Safe, Good, Unspent;
    StrikeSafe(before, after);
  }

  lemma PerformQuiet(sys: System, action: Action)
    requires Good(sys) && !action.DoReserve? && !action.DoApply?
    ensures var after := Perform(sys, action).sys; Quiet(sys, after) && Shows(sys.ledger, after.ledger, after.log)
  {
    hide Good, Begin, Capture, Simulate, Approve, Verify, RecordRun, Commit, Rollback, Recover, Quiet, Shows;
    match action {
      case DoBegin(ref, readable, at, fault) => BeginQuiet(sys, ref, readable, at, fault);
      case DoCapture(scopeValid, capture) => CaptureQuiet(sys, scopeValid, capture);
      case DoSimulate(operation, simulation, at, fault) => SimulateQuiet(sys, operation, simulation, at, fault);
      case DoApprove(approval, at, fault) => ApproveQuiet(sys, approval, at, fault);
      case DoVerify(verification) => VerifyQuiet(sys, verification);
      case DoRecord(at, fault, first, second) => RecordQuiet(sys, at, fault, first, second);
      case DoCommit(closing) => CommitQuiet(sys, closing);
      case DoRollback(closing) => RollbackQuiet(sys, closing);
      case DoRecover(env) => RecoverQuiet(sys, env);
      case DoRestart => RestartQuiet(sys);
    }
    if Perform(sys, action).sys.ledger == sys.ledger {
      EarlyShows(sys, Perform(sys, action).sys);
    }
  }

  lemma RestartQuiet(sys: System)
    ensures Quiet(sys, sys.Restart()) && Shows(sys.ledger, sys.ledger, sys.log)
  {
  }

  lemma PerformFair(sys: System, action: Action)
    requires Good(sys) && Safe(sys.ledger, sys.log) && Unspent(sys.memory, sys.log)
    ensures var after := Perform(sys, action).sys; Good(after) && Safe(after.ledger, after.log) && Fair(sys, after)
  {
    hide Good, Safe, Fair, Grant, Strike, Quiet, Shows, DriverLifecycle.Reserve, Apply, Unspent;
    PerformKeeps(sys, action);
    match action
    case DoReserve(key, now, storeFault, at, fault) =>
      ReserveFair(sys, key, now, storeFault, at, fault);
    case DoApply(capture, at, fault, receipt, at', fault') =>
      ApplyStrikes(sys, capture, at, fault, receipt, at', fault');
      StrikeFair(sys, Apply(sys, capture, at, fault, receipt, at', fault').sys);
    case _ =>
      PerformQuiet(sys, action);
      QuietFair(sys, Perform(sys, action).sys);
  }

  lemma ReserveFair(sys: System, key: ReservationKey, now: nat, storeFault: Fault, at: nat, fault: Fault)
    requires Safe(sys.ledger, sys.log)
    ensures var after := DriverLifecycle.Reserve(sys, key, now, storeFault, at, fault).sys;
      Safe(after.ledger, after.log) && Fair(sys, after)
  {
    hide Safe, Grant, StoreReservation, ValidKey;
    if !Armed(sys.memory) {
      ReserveGrants(sys, key, now, storeFault, at, fault);
      GrantFair(sys, DriverLifecycle.Reserve(sys, key, now, storeFault, at, fault).sys);
    }
  }

  // ---------------------------------------------------------------- every run of every number of lifecycles

  lemma {:induction false} TrailFrame(log: seq<Entry>, later: seq<Entry>, node: nat)
    requires log <= later && forall i | |log| <= i < |later| :: later[i].node != node
    ensures Trail(later, node) == Trail(log, node)
  {
    if |later| > |log| {
      TrailFrame(log, later[..|later| - 1], node);
    } else {
      assert later == log;
    }
  }

  /** A lifecycle stays good while another one works on the shared stores. */
  lemma BystanderGood(sys: System, other: System, after: System)
    requires Good(sys) && sys.self != other.self && other.ledger == sys.ledger && other.log == sys.log
    requires Fair(other, after) && ValidLedger(after.ledger)
    ensures Good(sys.(ledger := after.ledger, receipts := after.receipts, log := after.log))
  {
    hide Bounded, Open, TracedEntry, Facts, Script, ValidLedger;
    TrailFrame(sys.log, after.log, sys.self);
    LedgerKeeps(sys, after.ledger);
    if sys.memory.Active() {
      RunBookedExtends(sys.memory.run.value, sys.ledger, after.ledger);
    }
  }

  lemma ArmedIsBooked(sys: System)
    requires Good(sys) && Armed(sys.memory)
    ensures sys.memory.run.value.ref.planId in sys.ledger.bookings
  {
    hide Good;
    ArmedIsAuthorized(sys);
  }

  lemma MoveKeeps(world: World, id: nat, action: Action)
    requires Sound(world)
    ensures Sound(Move(world, id, action))
  {
    hide Good, Safe, Perform;
    if id in world.nodes {
      var before := View(world, id);
      PerformFair(before, action);
      var after := Perform(before, action).sys;
      LedgerOfGood(after);
      var next := Put(world, after);
      assert View(next, id) == after;
      forall other | other in world.nodes && other != id
        ensures Good(View(next, other)) && Unspent(next.nodes[other].memory, next.log)
        ensures Armed(world.nodes[other].memory) ==>
            world.nodes[other].memory.run.value.ref.planId in world.ledger.bookings
      {
        BystanderGood(View(world, other), before, after);
        assert View(next, other)
            == View(world, other).(ledger := after.ledger, receipts := after.receipts, log := after.log);
        if Armed(world.nodes[other].memory) {
          ArmedIsBooked(View(world, other));
        }
        UnspentKeeps(world, id, other, after);
      }
      OwnUnspent(before, after);
      assert next.nodes.Keys == world.nodes.Keys;
    }
  }

  lemma UnspentKeeps(world: World, id: nat, other: nat, after: System)
    requires Sound(world) && id in world.nodes && other in world.nodes && other != id && Fair(View(world, id), after)
    ensures Unspent(world.nodes[other].memory, after.log)
  {
    hide Good, Safe, Extends;
    forall i | Armed(world.nodes[other].memory) && Calls(after.log, i)
      ensures after.log[i].event.request.ref.planId != world.nodes[other].memory.run.value.ref.planId
    {
      assert i < |world.log| ==> Calls(world.log, i);
    }
  }

  lemma OwnUnspent(before: System, after: System)
    requires Unspent(before.memory, before.log) && Fair(before, after) && Safe(before.ledger, before.log)
    ensures Unspent(after.memory, after.log)
  {
    hide Extends, ApplyAuthorized, CommitsProven, GrantsRise;
    forall i | Armed(after.memory) && Calls(after.log, i)
      ensures after.log[i].event.request.ref.planId != after.memory.run.value.ref.planId
    {
      assert i < |before.log| ==> Calls(before.log, i);
    }
  }

  lemma InitialSound(world: World)
    requires Initial(world)
    ensures Sound(world)
  {
  }

  /** Every run of any number of lifecycles over one ledger keeps every promise. */
  lemma {:induction false} EveryRunIsSafe(world: World, calls: seq<Call>)
    requires Sound(world)
    ensures Sound(Play(world, calls))
    decreases |calls|
  {
    hide Sound, Move;
    if calls != [] {
      MoveKeeps(world, calls[0].node, calls[0].action);
      EveryRunIsSafe(Move(world, calls[0].node, calls[0].action), calls[1..]);
    }
  }

  /**
    From empty journals and a store without bookings: at most one apply call per plan id, and all
    that goes with it.
  */
  lemma ApplyAtMostOncePerPlan(world: World, calls: seq<Call>)
    requires Initial(world)
    ensures var end := Play(world, calls);
      && ApplyAuthorized(end.log) && ApplyOnce(end.log) && GrantsRise(end.ledger, end.log)
          && CommitsProven(end.ledger, end.log)
  {
    hide ApplyAuthorized, ApplyOnce, GrantsRise, CommitsProven, Initial;
    InitialSound(world);
    EveryRunIsSafe(world, calls);
  }
}
