/**
  Recovery from the journal alone (agent/driver/lifecycle.go:613-838): what it expects of the
  host, what a successful recovery leaves behind, and exactly when it can succeed at all.
*/
module DriverRecovery {
  import opened Common
  import opened DriverContract
  import opened DriverJournal
  import opened DriverReservation
  import opened DriverLifecycle
  import opened DriverInvariant
  import opened DriverSafety
  import opened DriverClosing
  import opened DriverCorrespondence

  // ---------------------------------------------------------------- what recovery expects

  /** Shape of the trail an entry past RESERVE always has. */
  ghost predicate Past(trail: seq<Event>, step: Step) {
    && (step.Rank() >= 5 ==> |trail| >= 6 && trail[2].SimulatedPlan? && trail[4].Granted? && trail[5].HostUnchanged?)
    && (step.Rank() >= 5 && |trail| >= 7 ==> trail[6].CalledApply?)
    && (step.Rank() >= 6 ==> |trail| >= 8 && trail[7].AcceptedReceipt?)
  }

  /** The digests and the token recovery derives for an open entry are those of the entry's own run. */
  ghost predicate Remembers(journal: seq<Record>, entry: Record, trail: seq<Event>)
    requires Past(trail, entry.step)
  {
    && (entry.step.StepApply? ==>
          && ExpectedDigest(journal, entry) == trail[2].after && BeforeDigest(journal, entry) == trail[5].digest
          && (|trail| >= 7 ==>
                var request := trail[6].request;
                RederivedToken(entry) == OwnershipTokenFor(request.ref, request.target, request.reservation.token)))
    && (entry.step.StepVerify? || entry.step.StepRecord? ==>
          && ExpectedDigest(journal, entry) == trail[7].receipt.appliedDigest
              && BeforeDigest(journal, entry) == trail[5].digest
          && RederivedToken(entry) == trail[7].receipt.ownership)
  }

  /**
    Whatever the node did before (earlier runs of the same identity, rollbacks, compactions, crashes),
    recovery judges an in-flight entry by the digest its own run predicted or was receipted with, and
    asks for the very token Apply demanded.
  */
  lemma RecoveryRemembersItsRun(world: World, calls: seq<Call>, id: nat, ref: PlanRef)
    requires Initial(world) && id in world.nodes
    ensures var end := Play(world, calls);
      && id in end.nodes
      && (ref in Open(end.nodes[id].journal) ==>
            var journal, trail := end.nodes[id].journal, Trail(end.log, id);
            && trail != [] && trail[0] == Began(ref) && Past(trail, Open(journal)[ref].step)
                && Remembers(journal, Open(journal)[ref], trail))
  {
    hide Sound, Play, Good, TracedEntry, Open, Remembers, Past;
    InitialSound(world);
    NodesStay(world, calls);
    EveryRunIsSafe(world, calls);
    var end := Play(world, calls);
    GoodNode(end, id);
    if ref in Open(end.nodes[id].journal) {
      var sys := View(end, id);
      DurableOfGood(sys);
      DurableEntry(sys, ref);
      TracedRemembers(sys.journal, Open(sys.journal)[ref], Trail(sys.log, sys.self));
    }
  }

  lemma DurableOfGood(sys: System)
    requires Good(sys)
    ensures Durable(sys)
  {
  }

  lemma TracedRemembers(journal: seq<Record>, entry: Record, trail: seq<Event>)
    requires TracedEntry(journal, entry, trail)
    ensures trail != [] && trail[0] == Began(entry.ref) && Past(trail, entry.step) && Remembers(journal, entry, trail)
  {
    if entry.step.Rank() >= 5 {
      LastDigestDefault(journal, entry.ref, StepSimulate, entry.digest);
      LastDigestDefault(journal, entry.ref, StepApply, entry.digest);
    }
  }

  // ---------------------------------------------------------------- one entry

  /** How recovery means to end an entry: COMMIT exactly when the driver confirms the host. */
  datatype Ending = Ending(terminal: Step, result: Digest)

  function Intended(records: seq<Record>, entry: Record, rescue: Rescue): (ending: Ending)
    ensures ending.terminal.StepCommit? <==> !Early(entry.step) && Confirms(records, entry, rescue)
    ensures ending.terminal.StepCommit? || ending.terminal.StepRollback?
  {
    if Early(entry.step) then Ending(StepRollback, NoDigest)
    else if Confirms(records, entry, rescue) then
      var line := CommitLine(RebuiltReceipt(records, entry), ReasonRecoveryCommit, rescue.closing.now);
      Ending(StepCommit, ReceiptHash(line))
    else if rescue.closing.driver.Answers? then
      Ending(StepRollback, ReceiptHash(RollbackLine(rescue.closing.driver.value, ReasonRecoveryRollback)))
    else Ending(StepRollback, NoDigest)
  }

  /** The driver keeps its contract, the clocks are set and the writes recovery makes go through. */
  predicate Willing(records: seq<Record>, entry: Record, rescue: Rescue) {
    Able(records, entry, rescue) && rescue.closing.at != 0 && rescue.closing.finishFault.Healthy?
  }

  /** All of that up to the release. */
  predicate Able(records: seq<Record>, entry: Record, rescue: Rescue) {
    var closing := rescue.closing;
    && (entry.reservation != NO_KEY ==> closing.releaseFault.Healthy?)
    && (!Early(entry.step) ==>
          && !rescue.verify.Dies? && !rescue.verify.Errs?
          && if Confirms(records, entry, rescue) then
               rescue.first.Healthy? && rescue.second.Healthy? && closing.receiptFault.Healthy? && closing.now != 0
             else
               || closing.driver.UnknownOwnership?
               || (closing.driver.Answers? && ValidRollbackReceipt(closing.driver.value)
                   && closing.receiptFault.Healthy?))
  }

  /** What recovery can rely on in an open entry of a sound journal. */
  ghost predicate Recoverable(sys: System, entry: Record) {
    && ValidRecord(entry) && !entry.step.Terminal()
    && Open(sys.journal).Keys == {entry.ref} && Open(sys.journal)[entry.ref] == entry
    && (entry.reservation != NO_KEY ==> Books(sys.ledger, entry.reservation))
    && (!Early(entry.step) ==>
          entry.reservation != NO_KEY && entry.target != "" && ValidApplyReceipt(RebuiltReceipt(sys.journal, entry)))
  }

  lemma OpenEntryRecoverable(sys: System, ref: PlanRef)
    requires Durable(sys) && ref in Open(sys.journal)
    ensures Recoverable(sys, Open(sys.journal)[ref])
  {
    hide Open, TracedEntry, Ordered, RebuiltReceipt, ValidApplyReceipt;
    OpenEntriesAreRecords(sys.journal);
    DurableEntry(sys, ref);
    var entry := Open(sys.journal)[ref];
    if !Early(entry.step) {
      LateEntry(sys.journal, entry, Trail(sys.log, sys.self));
    }
  }

  lemma LateEntry(journal: seq<Record>, entry: Record, trail: seq<Event>)
    requires TracedEntry(journal, entry, trail) && ValidRecord(entry) && !entry.step.Terminal() && !Early(entry.step)
    ensures entry.reservation != NO_KEY && entry.target != "" && ValidApplyReceipt(RebuiltReceipt(journal, entry))
  {
    LastDigestDefault(journal, entry.ref, StepSimulate, entry.digest);
    LastDigestDefault(journal, entry.ref, StepApply, entry.digest);
  }

  lemma RebuiltToken(ledger: Ledger, entry: Record)
    requires ValidRecord(entry) && (entry.reservation != NO_KEY ==> Books(ledger, entry.reservation))
    ensures var run := Rebuilt(entry);
      && run.ref == entry.ref && run.Token().key == entry.reservation && run.receipt.None?
      && (run.reservation.Some? <==> entry.reservation != NO_KEY)
      && (run.reservation.Some? ==> Books(ledger, run.Token().key) && ValidReservationToken(run.Token()))
  {
  }

  lemma RollbackFinishValid(entry: Record, receipt: Option<ApplyReceipt>, closing: Closing)
    requires ValidRecord(entry) && (receipt.Some? ==> ValidApplyReceipt(receipt.value))
    requires receipt.Some? && closing.driver.Answers? ==> ValidRollbackReceipt(closing.driver.value)
    ensures ValidRecord(RollbackFinish(Rebuilt(entry).(receipt := receipt), closing)) <==> closing.at != 0
  {
  }

  lemma CommitValid(entry: Record, receipt: ApplyReceipt, closing: Closing)
    requires ValidRecord(entry) && ValidApplyReceipt(receipt)
    ensures ValidRecord(CommitFinish(Rebuilt(entry).(receipt := Some(receipt)), closing.at)) <==> closing.at != 0
    ensures ValidReceipt(CommitLine(receipt, ReasonRecoveryCommit, closing.now)) <==> closing.now != 0
  {
  }

  /** The outcome of recovering one entry, for every environment. */
  ghost predicate Judged(sys: System, turn: Turn, entry: Record, rescue: Rescue) {
    var ending := Intended(sys.journal, entry, rescue);
    var named := entry.reservation != NO_KEY;
    var free := !named || Free(sys.ledger, entry.reservation.planId, ending.terminal, ending.result);
    && (turn.outcome.Done? <==> Willing(sys.journal, entry, rescue) && free)
    && (turn.outcome.Done? ==> Settled(sys, turn.sys, named, entry.reservation.planId, ending.terminal, ending.result))
    && (turn.sys.journal != sys.journal ==> Able(sys.journal, entry, rescue) && free)
    && !turn.outcome.Clean?
  }

  lemma RollbackJudged(sys: System, entry: Record, receipt: Option<ApplyReceipt>, rescue: Rescue)
    requires Durable(sys) && Recoverable(sys, entry) && (receipt.Some? ==> ValidApplyReceipt(receipt.value))
    requires receipt.Some? <==> !Early(entry.step)
    requires receipt.Some? ==> !rescue.verify.Dies? && !rescue.verify.Errs? && !Confirms(sys.journal, entry, rescue)
    ensures Judged(sys, RollbackRun(sys, Rebuilt(entry).(receipt := receipt), ReasonRecoveryRollback, rescue.closing),
                   entry, rescue)
  {
    hide Durable, Open, RollbackRun, ValidRecord, ValidApplyReceipt, Free, Confirms, ValidRollbackReceipt,
         RebuiltReceipt, Settled, RollbackFinish;
    var run := Rebuilt(entry).(receipt := receipt);
    RebuiltToken(sys.ledger, entry);
    RollbackRunDone(sys, run, ReasonRecoveryRollback, rescue.closing);
    if Reverts(run, rescue.closing) {
      RollbackFinishValid(entry, receipt, rescue.closing);
    }
  }

  lemma CommitJudged(sys: System, entry: Record, rescue: Rescue)
    requires Durable(sys) && Recoverable(sys, entry) && !Early(entry.step) && Confirms(sys.journal, entry, rescue)
    ensures Judged(sys, RecoverEntry(sys, entry, sys.journal, rescue), entry, rescue)
  {
    hide Durable, Open, CommitRun, WriteReceipts, ValidRecord, RebuiltReceipt, Released, CommitFinish, ValidReceipt;
    var receipt := RebuiltReceipt(sys.journal, entry);
    var applied := Rebuilt(entry).(receipt := Some(receipt));
    var noted := sys.Log(Reverified(receipt.ownership, receipt.appliedDigest));
    RebuiltToken(sys.ledger, entry);
    ReverifiedKeeps(sys, Reverified(receipt.ownership, receipt.appliedDigest));
    LinesDone(noted, applied, rescue.verify.value, rescue.first, rescue.second);
    WriteReceiptsKeeps(noted, applied, rescue.verify.value, rescue.first, rescue.second);
    var lined := WriteReceipts(noted, applied, rescue.verify.value, rescue.first, rescue.second);
    CommitRunDone(lined.sys, applied, ReasonRecoveryCommit, rescue.closing);
    CommitValid(entry, receipt, rescue.closing);
  }

  lemma LinesDone(sys: System, run: Run, verification: Verification, first: Fault, second: Fault)
    requires ValidApplyReceipt(run.Receipt()) && ValidVerification(verification)
    ensures WriteReceipts(sys, run, verification, first, second).outcome.Done? <==> first.Healthy? && second.Healthy?
  {
    hide WriteReceipt;
    ReceiptDone(sys, ApplyLine(run.Receipt()), first);
    ReceiptDone(WriteReceipt(sys, ApplyLine(run.Receipt()), first).sys, VerifyLine(run.Receipt(), verification),
                second);
  }

  lemma EntryJudged(sys: System, entry: Record, rescue: Rescue)
    requires Durable(sys) && Recoverable(sys, entry)
    ensures Judged(sys, RecoverEntry(sys, entry, sys.journal, rescue), entry, rescue)
  {
    hide Durable, Open, CommitRun, WriteReceipts, RollbackRun, RebuiltReceipt, Settled, Free, Confirms,
         ValidApplyReceipt, ValidReceipt, ValidRollbackReceipt;
    var receipt := RebuiltReceipt(sys.journal, entry);
    if Early(entry.step) {
      RollbackJudged(sys, entry, None, rescue);
      assert Rebuilt(entry).(receipt := None) == Rebuilt(entry);
    } else if rescue.verify.Dies? || rescue.verify.Errs? {
    } else if Confirms(sys.journal, entry, rescue) {
      CommitJudged(sys, entry, rescue);
    } else {
      RollbackJudged(sys, entry, Some(receipt), rescue);
    }
  }

  // ---------------------------------------------------------------- Recover as a whole

  /** Identity and journal can be read, the report has a time, and somebody answers for the entry. */
  predicate Attended(env: RecoverEnv) {
    env.readable && env.driver.Answers? && env.reportAt != 0 && env.rescues != []
  }

  /**
    From every durable state a run can leave behind: exactly when Recover succeeds, and that it then
    leaves nothing in flight, releases the reservation the entry names as COMMIT if and only if the
    driver confirmed the host and as ROLLBACK otherwise, and makes a second Recover clean and idle.
  */
  lemma RecoverSettles(sys: System, env: RecoverEnv, ref: PlanRef, again: RecoverEnv)
    requires Good(sys) && !sys.memory.Active() && ref in Open(sys.journal)
    ensures var entry, turn := Open(sys.journal)[ref], Recover(sys, env);
      && (turn.outcome.Done? <==>
            && Attended(env) && Willing(sys.journal, entry, env.rescues[0])
            && var ending := Intended(sys.journal, entry, env.rescues[0]);
               || entry.reservation == NO_KEY
               || Free(sys.ledger, entry.reservation.planId, ending.terminal, ending.result))
      && (turn.outcome.Done? ==>
            && (var ending := Intended(sys.journal, entry, env.rescues[0]);
                Settled(sys, turn.sys, entry.reservation != NO_KEY, entry.reservation.planId, ending.terminal,
                        ending.result))
            && Recover(turn.sys, again) == Turn(turn.sys, if again.readable then Clean else Refused(Unavailable)))
  {
    hide Good, Open, RecoverEntry, InFlight, Intended, Willing, Free, Released;
    DurableOfGood(sys);
    BoundedOfGood(sys);
    OneInFlight(sys.journal);
    var entry := Open(sys.journal)[ref];
    assert InFlight(Open(sys.journal)) == [entry];
    OpenEntryRecoverable(sys, ref);
    if env.rescues != [] {
      EntryJudged(sys, entry, env.rescues[0]);
      var turn := RecoverEntry(sys, entry, sys.journal, env.rescues[0]);
      assert RecoverEntries(sys, [entry], sys.journal, env.rescues) == turn;
      RecoverEntryKeeps(sys, entry, sys.journal, env.rescues[0]);
    }
  }

  // ---------------------------------------------------------------- when no Recover can succeed

  /** A rollback receipt as recovery, and nobody else, writes it. */
  predicate RecoveryLine(line: Receipt) {
    line.kind.RollbackKind? && line.target == "" && line.reason.ReasonRecoveryRollback? && ValidReceipt(line)
  }

  /** The endings recovery is able to produce for an entry, under whatever environment. */
  predicate Replayable(records: seq<Record>, entry: Record, terminal: Step, result: Digest) {
    match terminal
    case StepRollback => result.NoDigest? || (!Early(entry.step) && result.ReceiptHash? && RecoveryLine(result.receipt))
    case StepCommit =>
      && !Early(entry.step) && result.ReceiptHash? && result.receipt.at != 0
      && result.receipt == CommitLine(RebuiltReceipt(records, entry), ReasonRecoveryCommit, result.receipt.at)
    case _ => false
  }

  /** The entry's reservation was released with an ending recovery cannot reproduce. */
  ghost predicate Stuck(sys: System) {
    exists ref :: ref in Open(sys.journal) && StuckEntry(sys, Open(sys.journal)[ref])
  }

  ghost predicate StuckEntry(sys: System, entry: Record) {
    && entry.reservation != NO_KEY && entry.reservation.planId in sys.ledger.bookings
    && var booking := sys.ledger.bookings[entry.reservation.planId];
       booking.released && !Replayable(sys.journal, entry, booking.terminal, booking.result)
  }

  lemma IntendedIsReplayable(records: seq<Record>, entry: Record, rescue: Rescue)
    requires Able(records, entry, rescue)
    ensures var ending := Intended(records, entry, rescue); Replayable(records, entry, ending.terminal, ending.result)
  {
    hide RebuiltReceipt, Confirms;
  }

  /** The environment that makes recovery produce a given ending. */
  function RescueFor(records: seq<Record>, entry: Record, terminal: Step, result: Digest): Rescue {
    var expected := ExpectedDigest(records, entry);
    var line := if result.ReceiptHash? then result.receipt else CommitLine(NO_RECEIPT, ReasonApplied, 1);
    Rescue(
      if terminal.StepCommit? then Answers(Verification(RederivedToken(entry), expected, expected, true, true, 1))
          else UnknownOwnership,
      Healthy, Healthy,
      Closing(line.at,
              if result.NoDigest? then UnknownOwnership
              else Answers(RollbackReceipt(line.ref, line.ownership, line.digest, ReasonApplied, line.at)),
              Healthy, Healthy, 1, Healthy))
  }

  lemma ReplayableIsIntended(records: seq<Record>, entry: Record, terminal: Step, result: Digest)
    requires Replayable(records, entry, terminal, result)
    requires !Early(entry.step) ==> ValidApplyReceipt(RebuiltReceipt(records, entry))
    ensures var rescue := RescueFor(records, entry, terminal, result);
      Willing(records, entry, rescue) && Intended(records, entry, rescue) == Ending(terminal, result)
  {
  }

  /** Some environment lets Recover succeed if and only if the entry is not stuck. */
  lemma RecoverPossible(sys: System)
    requires Good(sys) && !sys.memory.Active() && Open(sys.journal) != map[]
    ensures (exists env :: Recover(sys, env).outcome.Done?) <==> !Stuck(sys)
  {
    hide Good, Open, Recover, Able, Replayable, Intended, RescueFor, Settled;
    var ref :| ref in Open(sys.journal);
    DurableOfGood(sys);
    OpenEntryRecoverable(sys, ref);
    var entry := Open(sys.journal)[ref];
    forall env | Recover(sys, env).outcome.Done?
      ensures !Stuck(sys)
    {
      RecoverSettles(sys, env, ref, env);
      IntendedIsReplayable(sys.journal, entry, env.rescues[0]);
    }
    if !Stuck(sys) {
      assert !StuckEntry(sys, entry);
      var booking :=
        if entry.reservation == NO_KEY || !sys.ledger.bookings[entry.reservation.planId].released
        then Booking(NO_TOKEN, false, StepRollback, NoDigest)
        else sys.ledger.bookings[entry.reservation.planId];
      RollbackIsReplayable(sys.journal, entry);
      ReplayableIsIntended(sys.journal, entry, booking.terminal, booking.result);
      var env := RecoverEnv(true, Answers(()), 1, [RescueFor(sys.journal, entry, booking.terminal, booking.result)]);
      RecoverSettles(sys, env, ref, env);
      assert Recover(sys, env).outcome.Done?;
    }
  }

  lemma RollbackIsReplayable(records: seq<Record>, entry: Record)
    ensures Replayable(records, entry, StepRollback, NoDigest)
  {
  }

  /** A stuck lifecycle completes nothing and stays stuck: begin and recovery are refused whatever happens. */
  lemma StuckStays(sys: System, action: Action)
    requires Good(sys) && !sys.memory.Active() && Stuck(sys)
    ensures var turn := Perform(sys, action);
      && Good(turn.sys) && !turn.sys.memory.Active() && turn.sys.journal == sys.journal && Stuck(turn.sys)
      && !turn.outcome.Done? && !turn.outcome.Clean?
  {
    hide Good, Recover, Open, StuckEntry;
    PerformKeeps(sys, action);
    PerformQuietLedger(sys, action);
    if action.DoRecover? {
      StuckRecover(sys, action.env);
    }
    var ref :| ref in Open(sys.journal) && StuckEntry(sys, Open(sys.journal)[ref]);
    StuckEntryStays(sys, Perform(sys, action).sys, Open(sys.journal)[ref]);
  }

  lemma PerformQuietLedger(sys: System, action: Action)
    requires Good(sys) && !sys.memory.Active()
    ensures Extends(sys.ledger, Perform(sys, action).sys.ledger)
  {
    hide Good, Recover, Extends, Open;
    NothingIsQuiet(sys);
    if action.DoRecover? {
      RecoverQuiet(sys, action.env);
    }
  }

  lemma StuckEntryStays(sys: System, after: System, entry: Record)
    requires StuckEntry(sys, entry) && Extends(sys.ledger, after.ledger) && after.journal == sys.journal
    ensures StuckEntry(after, entry)
  {
    hide Replayable;
  }

  lemma StuckRecover(sys: System, env: RecoverEnv)
    requires Good(sys) && !sys.memory.Active() && Stuck(sys)
    ensures var turn := Recover(sys, env);
      && !turn.outcome.Done? && !turn.outcome.Clean? && turn.sys.journal == sys.journal && !turn.sys.memory.Active()
  {
    hide Good, Open, RecoverEntry, InFlight, Recoverable, StuckEntry;
    var ref :| ref in Open(sys.journal) && StuckEntry(sys, Open(sys.journal)[ref]);
    var entry := Open(sys.journal)[ref];
    DurableOfGood(sys);
    BoundedOfGood(sys);
    OneInFlight(sys.journal);
    assert InFlight(Open(sys.journal)) == [entry];
    OpenEntryRecoverable(sys, ref);
    if env.rescues != [] {
      StuckEntryRecover(sys, entry, env.rescues[0]);
      var turn := RecoverEntry(sys, entry, sys.journal, env.rescues[0]);
      assert RecoverEntries(sys, [entry], sys.journal, env.rescues) == turn;
    }
  }

  lemma StuckEntryRecover(sys: System, entry: Record, rescue: Rescue)
    requires Durable(sys) && Recoverable(sys, entry) && StuckEntry(sys, entry)
    ensures var turn := RecoverEntry(sys, entry, sys.journal, rescue);
      && !turn.outcome.Done? && !turn.outcome.Clean? && turn.sys.journal == sys.journal && turn.sys.memory == sys.memory
  {
    hide Durable, Open, RecoverEntry, Intended, Able, Replayable, Settled, Free, RebuiltReceipt, ValidRecord;
    StuckIsNotFree(sys, entry, rescue);
    EntryJudged(sys, entry, rescue);
    RecoverEntryKeeps(sys, entry, sys.journal, rescue);
  }

  lemma StuckIsNotFree(sys: System, entry: Record, rescue: Rescue)
    requires StuckEntry(sys, entry)
    ensures var ending := Intended(sys.journal, entry, rescue);
      !Able(sys.journal, entry, rescue) || !Free(sys.ledger, entry.reservation.planId, ending.terminal, ending.result)
  {
    hide Intended, Able, Replayable;
    if Able(sys.journal, entry, rescue) {
      IntendedIsReplayable(sys.journal, entry, rescue);
    }
  }

  /** Over every run of every lifecycle that shares the store, a stuck node never recovers and never begins again. */
  lemma {:induction false} StuckForever(world: World, calls: seq<Call>, id: nat)
    requires Sound(world) && id in world.nodes && !world.nodes[id].memory.Active() && Stuck(View(world, id))
    ensures var end := Play(world, calls);
      && Sound(end) && id in end.nodes && !end.nodes[id].memory.Active() && Stuck(View(end, id))
      && end.nodes[id].journal == world.nodes[id].journal
    decreases |calls|
  {
    hide Sound, Stuck, Move;
    if calls != [] {
      MoveKeeps(world, calls[0].node, calls[0].action);
      StuckMove(world, calls[0], id);
      StuckForever(Move(world, calls[0].node, calls[0].action), calls[1..], id);
    }
  }

  lemma StuckMove(world: World, call: Call, id: nat)
    requires Sound(world) && id in world.nodes && !world.nodes[id].memory.Active() && Stuck(View(world, id))
    ensures var next := Move(world, call.node, call.action);
      && id in next.nodes && !next.nodes[id].memory.Active() && Stuck(View(next, id))
      && next.nodes[id].journal == world.nodes[id].journal
  {
    hide Good, Safe, Perform, StuckEntry, Open;
    if call.node in world.nodes {
      var before := View(world, call.node);
      PerformFair(before, call.action);
      var after := Perform(before, call.action).sys;
      if call.node == id {
        StuckStays(before, call.action);
        assert View(Put(world, after), id) == after;
      } else {
        var ref :| ref in Open(world.nodes[id].journal)
            && StuckEntry(View(world, id), Open(world.nodes[id].journal)[ref]);
        StuckEntryStays(View(world, id), View(Put(world, after), id), Open(world.nodes[id].journal)[ref]);
      }
    }
  }

  /**
    How a node gets stuck: the process dies between the release and the Finish of a live commit.  The
    booking then carries the live commit receipt, whose reason recovery never writes.
  */
  lemma CrashInCommitSticks(sys: System, closing: Closing)
    requires Good(sys) && Matched(sys.memory, sys.journal) && sys.memory.run.Some? && sys.memory.state.Recorded?
    requires Unreleased(sys.ledger, sys.memory.run.value.ref.planId)
    requires closing.now != 0 && closing.receiptFault.Healthy?
    requires closing.releaseFault.DiesAfter? || (closing.releaseFault.Healthy? && closing.finishFault.DiesBefore?)
    ensures var after := Commit(sys, closing).sys; Good(after) && !after.memory.Active() && Stuck(after)
  {
    hide Good, Durable, Open, WriteReceipt, WriteRelease, WriteJournal, ValidReceipt, Facts, Script, TracedEntry,
         Extends, RunBooked;
    var run := sys.memory.run.value;
    var line := CommitLine(run.Receipt(), ReasonApplied, closing.now);
    CommitKeeps(sys, closing);
    LiveFacts(sys);
    LiveEntry(sys);
    RecordedLine(run, sys.ledger, closing.now);
    ReceiptDone(sys, line, closing.receiptFault);
    WriteReceiptQuiet(sys, line, closing.receiptFault);
    var received := WriteReceipt(sys, line, closing.receiptFault);
    ReleaseLands(received.sys, run.Token(), StepCommit, ReceiptHash(line), closing.releaseFault);
    var released := WriteRelease(received.sys, run.Token(), StepCommit, ReceiptHash(line), closing.releaseFault);
    FinishDies(released.sys, CommitFinish(run, closing.at), closing.finishFault);
    assert StuckEntry(Commit(sys, closing).sys, Open(sys.journal)[run.ref]);
  }

  lemma RecordedLine(run: Run, ledger: Ledger, now: nat)
    requires Facts(run, 9) && RunBooked(run, ledger) && now != 0
    ensures ValidReceipt(CommitLine(run.Receipt(), ReasonApplied, now))
    ensures run.Token().key != NO_KEY && run.Token().key.planId == run.ref.planId
    ensures Books(ledger, run.Token().key) && ValidReservationToken(run.Token())
  {
  }

  lemma ReleaseLands(sys: System, token: ReservationToken, terminal: Step, result: Digest, fault: Fault)
    requires ValidLedger(sys.ledger) && Books(sys.ledger, token.key) && ValidReservationToken(token)
        && terminal.Terminal()
    requires !sys.ledger.bookings[token.key.planId].released && Lands(fault)
    ensures var turn := WriteRelease(sys, token, terminal, result, fault);
      && Released(sys.ledger, turn.sys.ledger, token.key.planId, terminal, result)
      && turn.sys == sys.(ledger := turn.sys.ledger) && turn.outcome == Verdict(fault)
  {
  }

  lemma FinishDies(sys: System, record: Record, fault: Fault)
    ensures fault.DiesBefore? ==> WriteJournal(sys, record, fault) == Turn(sys, Died)
  {
    hide Append;
  }

  /**
    The same crash in a live rollback of an acknowledged apply: the node is stuck if and only if the
    driver answered with a receipt, since the booking then carries a reason recovery never writes.
  */
  lemma CrashInRollbackSticks(sys: System, closing: Closing)
    requires Good(sys) && Matched(sys.memory, sys.journal) && sys.memory.Active()
    requires sys.memory.run.value.receipt.Some?
    requires Unreleased(sys.ledger, sys.memory.run.value.ref.planId)
    requires Reverts(sys.memory.run.value, closing)
    requires closing.releaseFault.DiesAfter? || (closing.releaseFault.Healthy? && closing.finishFault.DiesBefore?)
    ensures var after := Rollback(sys, closing).sys;
      && Good(after) && !after.memory.Active() && (Stuck(after) <==> closing.driver.Answers?)
  {
    hide Good, Durable, Open, RollbackRun, TracedEntry, RunBooked, Replayable, Reverts;
    var run := sys.memory.run.value;
    RollbackKeeps(sys, closing);
    DurableOfGood(sys);
    AcknowledgedOfGood(sys);
    BookedOfGood(sys);
    RollbackReleasesThenDies(sys, run, closing);
    var entry, after := Open(sys.journal)[run.ref], Rollback(sys, closing).sys;
    ReservedEntry(sys, run.ref);
    LiveRollbackReplays(sys.journal, entry, run, closing);
    assert after.journal == sys.journal;
    assert StuckEntry(after, entry) <==> closing.driver.Answers?;
  }

  lemma BookedOfGood(sys: System)
    requires Good(sys) && sys.memory.Active()
    ensures RunBooked(sys.memory.run.value, sys.ledger)
  {
  }

  lemma ReservedEntry(sys: System, ref: PlanRef)
    requires Durable(sys) && ref in Open(sys.journal) && Open(sys.journal)[ref].step.Rank() >= StepReserve.Rank()
    ensures Open(sys.journal)[ref].reservation != NO_KEY && Open(sys.journal)[ref].reservation.planId == ref.planId
  {
    hide Open, Bounded, LastDigest;
    OpenEntriesAreRecords(sys.journal);
    DurableEntry(sys, ref);
  }

  lemma RollbackReleasesThenDies(sys: System, run: Run, closing: Closing)
    requires Durable(sys) && RunBooked(run, sys.ledger) && run.reservation.Some? && Reverts(run, closing)
    requires Unreleased(sys.ledger, run.ref.planId)
    requires closing.releaseFault.DiesAfter? || (closing.releaseFault.Healthy? && closing.finishFault.DiesBefore?)
    ensures var turn := RollbackRun(sys, run, ReasonRolledBack, closing);
      && turn.outcome.Died? && turn.sys.journal == sys.journal
      && Released(sys.ledger, turn.sys.ledger, run.ref.planId, StepRollback,
                  RevertResult(run, ReasonRolledBack, closing))
  {
    hide Durable, Open, RevertRun, WriteRelease, WriteJournal, Reverts, RevertResult, RevertDigest, Released;
    LedgerOfDurable(sys);
    RevertDone(sys, run, ReasonRolledBack, closing);
    var reverted := RevertRun(sys, run, ReasonRolledBack, closing);
    ReleaseLands(reverted.sys, run.Token(), StepRollback, reverted.result, closing.releaseFault);
    var released := WriteRelease(reverted.sys, run.Token(), StepRollback, reverted.result, closing.releaseFault);
    FinishDies(
      released.sys, run.JournalLine(KindFinish, StepRollback, run.Receipt().ownership, reverted.restored, closing.at),
      closing.finishFault);
  }

  lemma LiveRollbackReplays(records: seq<Record>, entry: Record, run: Run, closing: Closing)
    requires run.receipt.Some? && Reverts(run, closing)
    ensures Replayable(records, entry, StepRollback, RevertResult(run, ReasonRolledBack, closing)) <==>
        !closing.driver.Answers?
  {
    hide RebuiltReceipt, ValidReceipt, ValidRollbackReceipt;
  }

  /**
    A COMMIT that recovery itself released is repeated by a later Recover only if the driver confirms
    the host again and the clock reads the recorded time.
  */
  lemma CommitIsRepeatedAtItsTime(sys: System, env: RecoverEnv, ref: PlanRef)
    requires Good(sys) && !sys.memory.Active() && ref in Open(sys.journal)
    requires var entry := Open(sys.journal)[ref];
      && entry.reservation.planId in sys.ledger.bookings
      && sys.ledger.bookings[entry.reservation.planId].released
      && sys.ledger.bookings[entry.reservation.planId].terminal.StepCommit?
      && sys.ledger.bookings[entry.reservation.planId].result.ReceiptHash?
    requires Open(sys.journal)[ref].reservation != NO_KEY && Recover(sys, env).outcome.Done?
    ensures var entry := Open(sys.journal)[ref];
      && env.rescues != [] && Confirms(sys.journal, entry, env.rescues[0])
      && env.rescues[0].closing.now == sys.ledger.bookings[entry.reservation.planId].result.receipt.at
  {
    hide Good, Open, Recover, RebuiltReceipt, Confirms, Settled, Willing;
    RecoverSettles(sys, env, ref, env);
  }

  /**
    After a crash between the COMMIT release and the Finish of a Recover, no Recover whose clock has
    moved on succeeds, whatever else happens.
  */
  lemma CrashInRecoveryWaits(sys: System, env: RecoverEnv, ref: PlanRef, later: RecoverEnv)
    requires Good(sys) && !sys.memory.Active() && ref in Open(sys.journal) && Attended(env)
    requires var entry, rescue := Open(sys.journal)[ref], env.rescues[0];
      && !Early(entry.step) && Confirms(sys.journal, entry, rescue) && Able(sys.journal, entry, rescue)
      && Free(sys.ledger, entry.reservation.planId, StepCommit, Intended(sys.journal, entry, rescue).result)
      && rescue.closing.finishFault.DiesBefore?
    requires later.rescues != [] ==> later.rescues[0].closing.now > env.rescues[0].closing.now
    ensures !Recover(Recover(sys, env).sys, later).outcome.Done?
  {
    hide Good, Open, Recover, RecoverEntry, RebuiltReceipt, Confirms, Able, Settled, InFlight;
    var entry, rescue := Open(sys.journal)[ref], env.rescues[0];
    RecoverKeeps(sys, env);
    RecoveryReleasesThenDies(sys, env, ref);
    var after := Recover(sys, env).sys;
    if Recover(after, later).outcome.Done? {
      CommitIsRepeatedAtItsTime(after, later, ref);
      assert false;
    }
  }

  lemma RecoveryReleasesThenDies(sys: System, env: RecoverEnv, ref: PlanRef)
    requires Good(sys) && !sys.memory.Active() && ref in Open(sys.journal) && Attended(env)
    requires var entry, rescue := Open(sys.journal)[ref], env.rescues[0];
      && !Early(entry.step) && Confirms(sys.journal, entry, rescue) && Able(sys.journal, entry, rescue)
      && Free(sys.ledger, entry.reservation.planId, StepCommit, Intended(sys.journal, entry, rescue).result)
      && rescue.closing.finishFault.DiesBefore?
    ensures var entry, rescue, after := Open(sys.journal)[ref], env.rescues[0], Recover(sys, env).sys;
      && entry.reservation != NO_KEY && after.journal == sys.journal && !after.memory.Active()
      && Released(sys.ledger, after.ledger, entry.reservation.planId, StepCommit,
                  Intended(sys.journal, entry, rescue).result)
      && Intended(sys.journal, entry, rescue).result.ReceiptHash?
      && Intended(sys.journal, entry, rescue).result.receipt.at == rescue.closing.now
  {
    hide Good, Open, RecoverEntry, InFlight, RebuiltReceipt, Confirms, Able, Settled, Released, Free;
    DurableOfGood(sys);
    BoundedOfGood(sys);
    OneInFlight(sys.journal);
    OpenEntryRecoverable(sys, ref);
    var entry, rescue := Open(sys.journal)[ref], env.rescues[0];
    assert InFlight(Open(sys.journal)) == [entry];
    EntryReleasesThenDies(sys, entry, rescue);
    assert RecoverEntries(sys, [entry], sys.journal, env.rescues) == RecoverEntry(sys, entry, sys.journal, rescue);
  }

  lemma EntryReleasesThenDies(sys: System, entry: Record, rescue: Rescue)
    requires Durable(sys) && Recoverable(sys, entry) && !Early(entry.step) && Confirms(sys.journal, entry, rescue)
    requires Able(sys.journal, entry, rescue) && rescue.closing.finishFault.DiesBefore?
    requires Free(sys.ledger, entry.reservation.planId, StepCommit, Intended(sys.journal, entry, rescue).result)
    ensures var turn := RecoverEntry(sys, entry, sys.journal, rescue);
      && turn.outcome.Died? && turn.sys.journal == sys.journal
      && Released(sys.ledger, turn.sys.ledger, entry.reservation.planId, StepCommit,
                  Intended(sys.journal, entry, rescue).result)
  {
    hide Durable, Open, WriteReceipts, WriteReceipt, WriteRelease, WriteJournal, ValidRecord, RebuiltReceipt,
         ValidReceipt;
    var receipt := RebuiltReceipt(sys.journal, entry);
    var applied := Rebuilt(entry).(receipt := Some(receipt));
    var noted := sys.Log(Reverified(receipt.ownership, receipt.appliedDigest));
    var line := CommitLine(receipt, ReasonRecoveryCommit, rescue.closing.now);
    LedgerOfDurable(sys);
    RebuiltToken(sys.ledger, entry);
    LinesDone(noted, applied, rescue.verify.value, rescue.first, rescue.second);
    ReceiptsMatched(noted, applied, rescue.verify.value, rescue.first, rescue.second);
    var lined := WriteReceipts(noted, applied, rescue.verify.value, rescue.first, rescue.second).sys;
    CommitValid(entry, receipt, rescue.closing);
    ReceiptDone(lined, line, rescue.closing.receiptFault);
    WriteReceiptQuiet(lined, line, rescue.closing.receiptFault);
    var received := WriteReceipt(lined, line, rescue.closing.receiptFault).sys;
    ReleaseDone(received, applied.Token(), StepCommit, ReceiptHash(line), rescue.closing.releaseFault);
    ReleaseQuiet(received, applied.Token(), StepCommit, ReceiptHash(line), rescue.closing.releaseFault);
    var released := WriteRelease(received, applied.Token(), StepCommit, ReceiptHash(line),
                                 rescue.closing.releaseFault).sys;
    FinishDies(released, CommitFinish(applied, rescue.closing.at), rescue.closing.finishFault);
  }
}
