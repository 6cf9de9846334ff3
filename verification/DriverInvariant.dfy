/**
  What every call of a lifecycle keeps: the relation between its memory, the one open entry of
  the journal it owns, the history of the current run, and the reservation ledger.
*/
module DriverInvariant {
  import opened Common
  import opened DriverContract
  import opened DriverJournal
  import opened DriverReservation
  import opened DriverLifecycle

  // ---------------------------------------------------------------- the history of the current run

  /** The node's own events since its last Began, recovery's verifications left out. */
  function Trail(log: seq<Entry>, node: nat): seq<Event> {
    if log == [] then []
    else
      var last, rest := log[|log| - 1], log[..|log| - 1];
      if last.node != node || last.event.Reverified? then Trail(rest, node)
      else if last.event.Began? then [last.event]
      else Trail(rest, node) + [last.event]
  }

  lemma TrailSnoc(log: seq<Entry>, entry: Entry, node: nat)
    ensures Trail(log + [entry], node) ==
              if entry.node != node || entry.event.Reverified? then Trail(log, node)
              else if entry.event.Began? then [entry.event]
              else Trail(log, node) + [entry.event]
  {
    assert (log + [entry])[..|log|] == log;
  }

  function After(run: Run): Digest {
    if run.simulation.Some? then run.simulation.value.afterDigest else NoDigest
  }

  const NO_APPROVAL := Approval("", 0, "", "", "", NoDigest)

  /** The events of a run that goes through, told from its memory. */
  function Script(run: Run): (script: seq<Event>)
    ensures |script| == 9
  {
    [Began(run.ref),
     CapturedHost(run.digest),
     SimulatedPlan(RequestOf(run).operation, run.digest, After(run)),
     BoundApproval(if run.approval.Some? then run.approval.value else NO_APPROVAL),
     Granted(run.Token()),
     HostUnchanged(run.digest),
     CalledApply(RequestOf(run)),
     AcceptedReceipt(run.Receipt()),
     VerifiedHost(run.Receipt().ownership, run.Receipt().appliedDigest)]
  }

  /** How much of the script a live state has behind it. */
  function Phase(state: State): (phase: nat)
    ensures phase <= 9
  {
    match state
    case Begun => 1
    case Captured => 2
    case Simulated => 3
    case Approved => 4
    case Reserved => 5
    case Applied => 8
    case Verified => 9
    case Recorded => 9
    case _ => 0
  }

  /** The journal step a live state corresponds to. */
  function StepFor(state: State): Step {
    match state
    case Begun => StepCapture
    case Captured => StepCapture
    case Simulated => StepSimulate
    case Approved => StepApprove
    case Reserved => StepReserve
    case Applied => StepVerify
    case Verified => StepVerify
    case Recorded => StepRecord
    case _ => StepNone
  }

  /** What the memory of a run contains at a phase. */
  ghost predicate Facts(run: Run, phase: nat) {
    && ValidRef(run.ref)
    && (phase >= 2 ==> ValidDigest(run.digest))
    && (phase < 3 ==> run.operation.None?)
    && (phase >= 3 ==>
          && run.simulation.Some? && ValidDigest(After(run))
          && run.operation.Some? && run.operation.value.id == run.ref.operationId && ValidTarget(run.Target()))
    && (phase >= 4 ==> run.approval.Some? && ValidApproval(run.approval.value) && Binds(run.approval.value, run))
    && (phase < 5 ==> run.reservation.None?)
    && (phase >= 5 ==>
          && run.reservation.Some? && ValidReservationToken(run.Token())
          && run.Token().key.planId == run.ref.planId && run.Token().key.planRevision == run.ref.planRevision)
    && (phase < 8 ==> run.receipt.None?)
    && (phase >= 8 ==> run.receipt.Some? && ValidApplyReceipt(run.Receipt()) && BoundTo(run.Receipt(), RequestOf(run)))
  }

  predicate Live(memory: Memory) {
    memory.Active() && !memory.state.Failed?
  }

  /** A live run has done exactly the first events of its script, and nothing else. */
  ghost predicate Scripted(memory: Memory, trail: seq<Event>) {
    Live(memory) ==>
      var run, phase := memory.run.value, Phase(memory.state);
      Facts(run, phase) && trail == Script(run)[..phase]
  }

  // ---------------------------------------------------------------- memory against journal

  /** The open entry belongs to the active run; a live run is at the step its state says. */
  ghost predicate Linked(memory: Memory, journal: seq<Record>) {
    var open := Open(journal);
    && (memory.run.None? ==> memory.state.Idle?)
    && (memory.Active() ==> open.Keys <= {memory.run.value.ref} && ValidRef(memory.run.value.ref))
    && (Live(memory) ==>
          var ref := memory.run.value.ref;
          && ref in open
          && (open[ref].step == StepFor(memory.state) || (memory.state.Simulated? && open[ref].step.StepApprove?)))
  }

  /** The journal loads, has at most one open entry, and is at most 1024 records plus the open entry's rank long. */
  ghost predicate Bounded(journal: seq<Record>) {
    && Check(journal)
    && (forall a, b | a in Open(journal) && b in Open(journal) :: a == b)
    && (Open(journal) == map[] ==> |journal| <= COMPACTION_THRESHOLD)
    && (forall ref | ref in Open(journal) :: |journal| <= COMPACTION_THRESHOLD + Open(journal)[ref].step.Rank())
  }

  /** What the open entry tells recovery is what its run did. */
  ghost predicate Traced(journal: seq<Record>, trail: seq<Event>) {
    forall ref | ref in Open(journal) :: TracedEntry(journal, Open(journal)[ref], trail)
  }

  ghost predicate TracedEntry(journal: seq<Record>, entry: Record, trail: seq<Event>) {
    var rank := entry.step.Rank();
    && trail != [] && trail[0] == Began(entry.ref)
    && (rank >= 2 ==>
          && |trail| >= 3 && trail[2].SimulatedPlan?
              && trail[2].operation == Operation(entry.ref.operationId, entry.target)
          && ValidTarget(entry.target) && ValidDigest(trail[2].after)
          && LastDigest(journal, entry.ref, StepSimulate, NoDigest) == trail[2].after)
    && (rank < 4 ==> entry.reservation == NO_KEY)
    && (rank >= 4 ==>
          && |trail| >= 5 && trail[4].Granted? && ValidReservationToken(trail[4].token)
          && entry.reservation == trail[4].token.key
          && entry.reservation.planId == entry.ref.planId && entry.reservation.planRevision == entry.ref.planRevision)
    && (rank >= 5 ==>
          && |trail| >= 6 && trail[5].HostUnchanged? && ValidDigest(trail[5].digest)
          && LastDigest(journal, entry.ref, StepApply, NoDigest) == trail[5].digest
          && (|trail| >= 7 ==>
                && trail[6].CalledApply? && trail[6].request.ref == entry.ref && trail[6].request.target == entry.target
                && trail[6].request.reservation == trail[4].token))
    && (rank == 5 ==> entry.digest == trail[5].digest)
    && (rank >= 6 ==>
          && |trail| >= 8 && trail[7].AcceptedReceipt? && ValidApplyReceipt(trail[7].receipt)
          && BoundTo(trail[7].receipt, trail[6].request)
          && entry.ownership == trail[7].receipt.ownership && entry.digest == trail[7].receipt.appliedDigest)
  }

  ghost predicate Books(ledger: Ledger, key: ReservationKey) {
    key.planId in ledger.bookings && ledger.bookings[key.planId].token.key == key
  }

  /** What must hold of the durable state alone. */
  ghost predicate Durable(sys: System) {
    && Bounded(sys.journal)
    && Traced(sys.journal, Trail(sys.log, sys.self))
    && ValidLedger(sys.ledger)
    && JournalBooked(sys.journal, sys.ledger)
  }

  /** Every reservation the open entry names is booked. */
  ghost predicate JournalBooked(journal: seq<Record>, ledger: Ledger) {
    forall ref | ref in Open(journal) ::
      Open(journal)[ref].reservation != NO_KEY ==> Books(ledger, Open(journal)[ref].reservation)
  }

  ghost predicate RunBooked(run: Run, ledger: Ledger) {
    run.reservation.Some? ==>
      Books(ledger, run.Token().key) && ValidReservationToken(run.Token()) && run.Token().key.planId == run.ref.planId
  }

  /** An apply the driver acknowledged was reserved, and its open entry is at APPLY or beyond. */
  ghost predicate Acknowledged(run: Run, journal: seq<Record>) {
    run.receipt.Some? ==>
      && run.reservation.Some?
      && (run.ref in Open(journal) ==> Open(journal)[run.ref].step.Rank() >= StepApply.Rank())
  }

  ghost predicate Good(sys: System) {
    && Durable(sys)
    && Linked(sys.memory, sys.journal)
    && Scripted(sys.memory, Trail(sys.log, sys.self))
    && (sys.memory.Active() ==>
          RunBooked(sys.memory.run.value, sys.ledger) && Acknowledged(sys.memory.run.value, sys.journal))
  }

  // ---------------------------------------------------------------- one journal write

  /** A write changes the journal by at most one append, and reports success only if it appended. */
  lemma WriteJournalEffect(sys: System, record: Record, fault: Fault)
    ensures var turn := WriteJournal(sys, record, fault);
      && turn.sys == sys.(journal := turn.sys.journal)
      && (turn.sys.journal == sys.journal || Append(sys.journal, record) == Ok(turn.sys.journal))
      && (turn.outcome.Done? ==> Append(sys.journal, record) == Ok(turn.sys.journal))
      && !turn.outcome.Clean?
  {
  }

  lemma {:induction false} AppendBounded(journal: seq<Record>, record: Record)
    requires Bounded(journal) && Append(journal, record).Ok?
    requires Open(journal).Keys <= {record.ref}
    ensures Bounded(Append(journal, record).value)
    ensures |journal| + 1 <= 1032
    ensures record.kind.KindFinish? ==> Open(Append(journal, record).value) == map[]
    ensures !record.kind.KindFinish? ==>
              Append(journal, record).value == journal + [record]
                  && Open(journal + [record]) == map[record.ref := record]
  {
    hide Ordered, Compact, Open;
    var after := Append(journal, record).value;
    AppendAgreesWithCheck(journal, record);
    OpenEntriesAreRecords(journal);
    if record.kind.KindFinish? {
      assert Open(after) == map[];
      CompactionKeepsOpenEntries(journal + [record]);
      ClosedJournalFits(journal + [record]);
    } else {
      assert Open(after) == map[record.ref := record];
      assert record.ref in Open(journal) ==> |journal| <= COMPACTION_THRESHOLD + Open(journal)[record.ref].step.Rank();
      assert record.ref !in Open(journal) ==> Open(journal) == map[];
      assert Objection(Open(journal), record) == None;
      assert record.ref in Open(journal) ==> Open(journal)[record.ref].step.Rank() < record.step.Rank();
      assert |after| <= COMPACTION_THRESHOLD + record.step.Rank();
      assert Open(after)[record.ref] == record;
    }
  }

  lemma LastDigestSnoc(records: seq<Record>, record: Record, ref: PlanRef, step: Step, otherwise: Digest)
    ensures LastDigest(records + [record], ref, step, otherwise) ==
              if record.ref == ref && record.step == step then record.digest
                  else LastDigest(records, ref, step, otherwise)
  {
    Snoc(records, record);
  }

  lemma {:induction false} LastDigestDefault(records: seq<Record>, ref: PlanRef, step: Step, otherwise: Digest)
    requires LastDigest(records, ref, step, NoDigest) != NoDigest
    ensures LastDigest(records, ref, step, otherwise) == LastDigest(records, ref, step, NoDigest)
  {
    if Last(records).ref != ref || Last(records).step != step {
      LastDigestDefault(Init(records), ref, step, otherwise);
    }
  }

  // ---------------------------------------------------------------- the leaves of every call

  lemma RestartKeeps(sys: System)
    requires Durable(sys)
    ensures Good(sys.Restart())
  {
    hide Bounded, TracedEntry, Open;
  }

  /** A failed run needs nothing of the journal but that no other entry is open. */
  lemma FailKeeps(sys: System, run: Run)
    requires Durable(sys) && Open(sys.journal).Keys <= {run.ref} && ValidRef(run.ref) && RunBooked(run, sys.ledger)
    requires Acknowledged(run, sys.journal)
    ensures Good(sys.With(Failed, run))
  {
    hide Bounded, TracedEntry, Open;
  }

  /** What Good says of a live run ... */
  lemma LiveFacts(sys: System)
    requires Good(sys) && Live(sys.memory)
    ensures var run, phase := sys.memory.run.value, Phase(sys.memory.state);
      && Durable(sys) && Facts(run, phase) && Trail(sys.log, sys.self) == Script(run)[..phase]
      && ValidRef(run.ref) && Open(sys.journal).Keys == {run.ref} && RunBooked(run, sys.ledger)
          && ValidLedger(sys.ledger)
      && (Open(sys.journal)[run.ref].step == StepFor(sys.memory.state)
          || (sys.memory.state.Simulated? && Open(sys.journal)[run.ref].step.StepApprove?))
  {
    hide Open, TracedEntry, Bounded;
  }

  /** ... and what it takes for a live run to be good. */
  lemma LiveGood(sys: System, state: State, run: Run)
    requires Durable(sys) && !state.Terminal() && !state.Failed?
    requires Facts(run, Phase(state)) && Trail(sys.log, sys.self) == Script(run)[..Phase(state)]
    requires Open(sys.journal).Keys == {run.ref} && RunBooked(run, sys.ledger)
    requires Open(sys.journal)[run.ref].step == StepFor(state)
        || (state.Simulated? && Open(sys.journal)[run.ref].step.StepApprove?)
    ensures Good(sys.With(state, run))
  {
    hide Open, TracedEntry, Bounded, Facts, Script, Acknowledged, RunBooked;
    MemoryIsNotDurable(sys, Memory(state, Some(run)));
    LiveAcknowledged(run, state, sys.journal);
    FactsOfRef(run, Phase(state));
  }

  lemma FactsOfRef(run: Run, phase: nat)
    requires Facts(run, phase)
    ensures ValidRef(run.ref)
  {
  }

  lemma LiveAcknowledged(run: Run, state: State, journal: seq<Record>)
    requires Facts(run, Phase(state)) && run.ref in Open(journal)
    requires Open(journal)[run.ref].step == StepFor(state)
        || (state.Simulated? && Open(journal)[run.ref].step.StepApprove?)
    ensures Acknowledged(run, journal)
  {
    hide Open, Facts;
    ReceiptedStep(run, state);
    if state.Simulated? {
      EarlyHasNoReceipt(run, Phase(state));
    }
  }

  lemma EarlyHasNoReceipt(run: Run, phase: nat)
    requires Facts(run, phase) && phase < 8
    ensures run.receipt.None?
  {
  }

  lemma AcknowledgedOfGood(sys: System)
    requires Good(sys) && sys.memory.Active()
    ensures Acknowledged(sys.memory.run.value, sys.journal)
  {
  }

  /** An extra event of the node does no harm to the durable state, unless it poses as the apply call. */
  lemma LogKeeps(sys: System, event: Event)
    requires Durable(sys) && !event.Began? && !event.Reverified?
    requires |Trail(sys.log, sys.self)| != 6
    ensures Durable(sys.Log(event))
    ensures Trail(sys.Log(event).log, sys.self) == Trail(sys.log, sys.self) + [event]
  {
    hide Bounded, Open, LastDigest;
    TrailSnoc(sys.log, Entry(sys.self, event), sys.self);
  }

  lemma LedgerKeeps(sys: System, ledger: Ledger)
    requires Durable(sys) && ValidLedger(ledger) && Extends(sys.ledger, ledger)
    ensures Durable(sys.(ledger := ledger))
  {
    hide Bounded, Open, TracedEntry;
  }

  lemma RunBookedExtends(run: Run, ledger: Ledger, later: Ledger)
    requires RunBooked(run, ledger) && Extends(ledger, later)
    ensures RunBooked(run, later)
  {
  }

  /** The journal after an accepted advance of the only open entry. */
  lemma AdvancedJournal(sys: System, record: Record)
    requires Durable(sys) && Open(sys.journal).Keys <= {record.ref}
    requires Append(sys.journal, record).Ok? && record.kind.KindAdvance?
    requires TracedEntry(sys.journal + [record], record, Trail(sys.log, sys.self))
    requires record.reservation != NO_KEY ==> Books(sys.ledger, record.reservation)
    ensures Append(sys.journal, record).value == sys.journal + [record]
    ensures Open(sys.journal + [record]) == map[record.ref := record]
    ensures Durable(sys.(journal := sys.journal + [record]))
  {
    hide Append, Open, TracedEntry, Check;
    AppendBounded(sys.journal, record);
  }

  /** A journalled advance leaves the durable state sound; success puts the record on file. */
  lemma WriteKeeps(sys: System, record: Record, fault: Fault)
    requires Durable(sys) && Open(sys.journal).Keys <= {record.ref} && record.kind.KindAdvance?
    requires TracedEntry(sys.journal + [record], record, Trail(sys.log, sys.self))
    requires record.reservation != NO_KEY ==> Books(sys.ledger, record.reservation)
    ensures var written := WriteJournal(sys, record, fault);
      && Durable(written.sys) && written.sys == sys.(journal := written.sys.journal)
      && (written.sys.journal == sys.journal || Open(written.sys.journal) == map[record.ref := record])
      && Open(written.sys.journal).Keys <= {record.ref}
      && (written.outcome.Done? ==>
            written.sys.journal == sys.journal + [record] && Open(written.sys.journal) == map[record.ref := record])
      && !written.outcome.Clean?
  {
    hide Append, Open, TracedEntry, Bounded, WriteJournal;
    WriteJournalEffect(sys, record, fault);
    if Append(sys.journal, record).Ok? {
      AdvancedJournal(sys, record);
    }
  }

  /** A journalled advance that settles ends in `state` with the record on file, in Failed, or in a restart. */
  lemma SettleKeeps(sys: System, record: Record, fault: Fault, state: State)
    requires Durable(sys) && sys.memory.Active() && !state.Terminal() && !state.Failed?
    requires Open(sys.journal).Keys <= {record.ref}
    requires record.kind.KindAdvance? && record.ref == sys.memory.run.value.ref && record.step == StepFor(state)
    requires TracedEntry(sys.journal + [record], record, Trail(sys.log, sys.self))
    requires record.reservation == sys.memory.run.value.Token().key && RunBooked(sys.memory.run.value, sys.ledger)
    requires ValidRef(record.ref) && Facts(sys.memory.run.value, Phase(state))
    requires Trail(sys.log, sys.self) == Script(sys.memory.run.value)[..Phase(state)]
    requires Acknowledged(sys.memory.run.value, sys.journal)
    ensures Good(Settle(WriteJournal(sys, record, fault), state, Failed).sys)
  {
    hide Open, TracedEntry, Facts, Script, Phase, StepFor, WriteJournal, Durable, Good, RunBooked, ValidRef, Trail,
         Settle, Books, Acknowledged;
    var run := sys.memory.run.value;
    BookedKey(run, sys.ledger);
    WriteKeeps(sys, record, fault);
    var written := WriteJournal(sys, record, fault);
    AdvanceAcknowledged(run, state, sys.journal, written.sys.journal, record);
    RestartKeeps(written.sys);
    FailKeeps(written.sys, run);
    if written.outcome.Done? {
      LiveGood(written.sys, state, run);
    }
    SettleEnds(written, state, run);
  }

  lemma AdvanceAcknowledged(run: Run, state: State, before: seq<Record>, after: seq<Record>, record: Record)
    requires Facts(run, Phase(state)) && record.step == StepFor(state) && Acknowledged(run, before)
    requires after == before || Open(after) == map[record.ref := record]
    ensures Acknowledged(run, after)
  {
    hide Open, Facts, Phase, StepFor;
    ReceiptedStep(run, state);
  }

  lemma ReceiptedStep(run: Run, state: State)
    requires Facts(run, Phase(state))
    ensures run.receipt.Some? ==> run.reservation.Some? && StepFor(state).Rank() >= StepApply.Rank()
  {
    hide ValidReservationToken, ValidApplyReceipt, ValidApproval, ValidTarget, ValidRef, Binds, BoundTo;
  }

  lemma SettleEnds(turn: Turn, state: State, run: Run)
    requires turn.sys.memory.run == Some(run) && !turn.outcome.Clean?
    requires Good(turn.sys.Restart()) && Good(turn.sys.With(Failed, run))
    requires turn.outcome.Done? ==> Good(turn.sys.With(state, run))
    ensures Good(Settle(turn, state, Failed).sys)
  {
    hide Good;
  }

  // ---------------------------------------------------------------- each call keeps the invariant

  lemma JournalBeginKeeps(sys: System, ref: PlanRef, at: nat, fault: Fault)
    requires Good(sys) && ValidRef(ref) && !sys.memory.Active() && Open(sys.journal) == map[]
    ensures Good(JournalBegin(sys, NewRun(ref), at, fault).sys)
  {
    hide Append, Open, Bounded, LastDigest, WriteJournal;
    var run := NewRun(ref);
    var record := run.JournalLine(KindBegin, StepCapture, NoDigest, NoDigest, at);
    TrailSnoc(sys.log, Entry(sys.self, Began(ref)), sys.self);
    WriteJournalEffect(sys.Log(Began(ref)), record, fault);
    if Append(sys.journal, record).Ok? {
      AppendBounded(sys.journal, record);
    }
  }

  lemma BeginKeeps(sys: System, ref: PlanRef, readable: bool, at: nat, fault: Fault)
    requires Good(sys)
    ensures Good(Begin(sys, ref, readable, at, fault).sys)
  {
    hide Good, JournalBegin;
    if ValidRef(ref) && !sys.memory.Active() && Open(sys.journal) == map[] {
      JournalBeginKeeps(sys, ref, at, fault);
    }
  }

  lemma FailsAs(sys: System, run: Run)
    requires Good(sys) && sys.memory.Active()
    requires run.ref == sys.memory.run.value.ref && run.reservation == sys.memory.run.value.reservation
    requires run.receipt == sys.memory.run.value.receipt
    ensures Good(sys.With(Failed, run))
  {
    hide Durable, Open;
    FailKeeps(sys, run);
  }

  /** Where every step may end without further ado: refused, failed, or dead. */
  lemma PlainEnds(sys: System)
    requires Good(sys) && sys.memory.Active()
    ensures Good(sys.Restart()) && Good(sys.Enter(Failed))
  {
    hide Durable, Open;
    RestartKeeps(sys);
    FailKeeps(sys, sys.memory.run.value);
  }

  lemma CapturedKeeps(sys: System, digest: Digest)
    requires Good(sys) && sys.memory.run.Some? && sys.memory.state.Begun? && ValidDigest(digest)
    ensures Good(sys.Log(CapturedHost(digest)).With(Captured, sys.memory.run.value.(digest := digest)))
  {
    hide Durable, Open;
    LogKeeps(sys, CapturedHost(digest));
    MemoryIsNotDurable(sys.Log(CapturedHost(digest)), Memory(Captured, Some(sys.memory.run.value.(digest := digest))));
  }

  lemma CaptureKeeps(sys: System, scopeValid: bool, reply: Reply<Digest>)
    requires Good(sys)
    ensures Good(Capture(sys, scopeValid, reply).sys)
  {
    hide Good;
    if Require(sys.memory, Begun) == None {
      PlainEnds(sys);
      if reply.Answers? && ValidDigest(reply.value) {
        CapturedKeeps(sys, reply.value);
      }
    }
  }

  lemma JournalSimulationKeeps(sys: System, operation: Operation, result: Simulation, at: nat, fault: Fault)
    requires Good(sys) && sys.memory.run.Some? && sys.memory.state.Captured?
    requires operation.id == sys.memory.run.value.ref.operationId && ValidTarget(operation.target)
    requires Fits(result, operation, sys.memory.run.value)
    ensures Good(JournalSimulation(sys, sys.memory.run.value, operation, result, at, fault).sys)
  {
    hide Durable, Open, WriteJournal;
    var next := Predicted(sys.memory.run.value, operation, result);
    var event := SimulatedPlan(operation, result.snapshotDigest, result.afterDigest);
    var record := next.JournalLine(KindAdvance, StepSimulate, NoDigest, result.afterDigest, at);
    LogKeeps(sys, event);
    LastDigestSnoc(sys.journal, record, next.ref, StepSimulate, NoDigest);
    var ready := sys.Log(event).With(Captured, next);
    assert Durable(ready) by { MemoryIsNotDurable(sys.Log(event), ready.memory); }
    SettleKeeps(ready, record, fault, Simulated);
  }

  lemma MemoryIsNotDurable(sys: System, memory: Memory)
    requires Durable(sys)
    ensures Durable(sys.(memory := memory))
  {
    hide Bounded, TracedEntry, Open;
  }

  lemma SimulateKeeps(sys: System, operation: Option<Operation>, reply: Reply<Simulation>, at: nat, fault: Fault)
    requires Good(sys)
    ensures Good(Simulate(sys, operation, reply, at, fault).sys)
  {
    hide Good, JournalSimulation;
    if Require(sys.memory, Captured) == None {
      var run := sys.memory.run.value;
      PlainEnds(sys);
      if reply.Answers? && operation.Some? {
        FailsAs(sys, Predicted(run, operation.value, reply.value));
        if operation.value.id == run.ref.operationId && ValidTarget(operation.value.target)
            && Fits(reply.value, operation.value, run) {
          JournalSimulationKeeps(sys, operation.value, reply.value, at, fault);
        }
      }
    }
  }

  /** An open entry that moves on without new facts stays traced. */
  lemma StillTraced(sys: System, entry: Record, record: Record)
    requires Durable(sys) && entry.ref in Open(sys.journal) && Open(sys.journal)[entry.ref] == entry
    requires record.ref == entry.ref && record.target == entry.target && record.reservation == entry.reservation
    requires 2 <= entry.step.Rank() <= record.step.Rank() < 4 || (entry.step.StepVerify? && record.step.StepRecord?)
    requires record.step.StepRecord? ==> record.ownership == entry.ownership && record.digest == entry.digest
    requires !record.step.StepSimulate?
    ensures TracedEntry(sys.journal + [record], record, Trail(sys.log, sys.self))
  {
    hide Bounded, Open;
    LastDigestSnoc(sys.journal, record, record.ref, StepSimulate, NoDigest);
    LastDigestSnoc(sys.journal, record, record.ref, StepApply, NoDigest);
  }

  /** The open entry of a live run carries the run's target and reservation. */
  lemma LiveEntry(sys: System)
    requires Good(sys) && Live(sys.memory)
    ensures var run := sys.memory.run.value;
      && run.ref in Open(sys.journal) && Open(sys.journal)[run.ref].ref == run.ref
      && TracedEntry(sys.journal, Open(sys.journal)[run.ref], Trail(sys.log, sys.self))
      && (Phase(sys.memory.state) >= 3 ==>
            Open(sys.journal)[run.ref].target == run.Target()
                && Open(sys.journal)[run.ref].reservation == run.Token().key)
      && (Phase(sys.memory.state) >= 8 ==>
            && Open(sys.journal)[run.ref].ownership == run.Receipt().ownership
            && Open(sys.journal)[run.ref].digest == run.Receipt().appliedDigest)
  {
    hide Good, Durable, Open, LastDigest, ValidApplyReceipt, ValidReservationToken;
    LiveFacts(sys);
    DurableEntry(sys, sys.memory.run.value.ref);
  }

  lemma DurableEntry(sys: System, ref: PlanRef)
    requires Durable(sys) && ref in Open(sys.journal)
    ensures Open(sys.journal)[ref].ref == ref
        && TracedEntry(sys.journal, Open(sys.journal)[ref], Trail(sys.log, sys.self))
  {
    hide Bounded, TracedEntry;
  }

  lemma ApprovalScripted(run: Run, approval: Approval)
    requires Facts(run, 3) && ValidApproval(approval) && Binds(approval, run)
    ensures Facts(run.(approval := Some(approval)), 4)
    ensures Script(run.(approval := Some(approval)))[..4] == Script(run)[..3] + [BoundApproval(approval)]
  {
  }

  lemma JournalApprovalKeeps(sys: System, approval: Approval, at: nat, fault: Fault)
    requires Good(sys) && sys.memory.run.Some? && sys.memory.state.Simulated?
    requires ValidApproval(approval) && Binds(approval, sys.memory.run.value)
    ensures Good(JournalApproval(sys, sys.memory.run.value, approval, at, fault).sys)
  {
    hide Good, Durable, Open, TracedEntry, WriteJournal, Facts, Script, RunBooked, ValidApproval;
    var run := sys.memory.run.value;
    var record := run.JournalLine(KindAdvance, StepApprove, NoDigest, approval.digest, at);
    LiveFacts(sys);
    LiveEntry(sys);
    StillTraced(sys, Open(sys.journal)[run.ref], record);
    SimulatedHasNoToken(run);
    WriteKeeps(sys, record, fault);
    var written := WriteJournal(sys, record, fault);
    RestartKeeps(written.sys);
    if written.outcome.Done? {
      LogKeeps(written.sys, BoundApproval(approval));
      ApprovalScripted(run, approval);
      assert RunBooked(run.(approval := Some(approval)),
                       sys.ledger) by { SameBooking(run, run.(approval := Some(approval)), sys.ledger); }
      LiveGood(written.sys.Log(BoundApproval(approval)), Approved, run.(approval := Some(approval)));
    } else if written.outcome.Refused? {
      LiveGood(written.sys, Simulated, run);
    }
  }

  lemma SimulatedHasNoToken(run: Run)
    requires Facts(run, 3)
    ensures run.reservation.None? && run.Token().key == NO_KEY
  {
  }

  lemma SameBooking(run: Run, next: Run, ledger: Ledger)
    requires RunBooked(run, ledger) && next.reservation == run.reservation && next.ref == run.ref
    ensures RunBooked(next, ledger)
  {
  }

  lemma ApproveKeeps(sys: System, approval: Approval, at: nat, fault: Fault)
    requires Good(sys)
    ensures Good(Approve(sys, approval, at, fault).sys)
  {
    hide Good, JournalApproval;
    if Require(sys.memory, Simulated) == None && ValidApproval(approval) && Binds(approval, sys.memory.run.value) {
      JournalApprovalKeeps(sys, approval, at, fault);
    }
  }

  lemma GrantScripted(run: Run, token: ReservationToken)
    requires Facts(run, 4) && ValidReservationToken(token)
    requires token.key.planId == run.ref.planId && token.key.planRevision == run.ref.planRevision
    ensures Facts(run.(reservation := Some(token)), 5)
    ensures Script(run.(reservation := Some(token)))[..5] == Script(run)[..4] + [Granted(token)]
  {
  }

  lemma ReservationTraced(sys: System, entry: Record, record: Record, token: ReservationToken)
    requires Durable(sys) && entry.ref in Open(sys.journal) && Open(sys.journal)[entry.ref] == entry
        && entry.step.StepApprove?
    requires record.ref == entry.ref && record.target == entry.target && record.step.StepReserve?
        && record.reservation == token.key
    requires ValidReservationToken(token) && token.key.planId == entry.ref.planId
        && token.key.planRevision == entry.ref.planRevision
    requires |Trail(sys.log, sys.self)| == 5 && Trail(sys.log, sys.self)[4] == Granted(token)
    ensures TracedEntry(sys.journal + [record], record, Trail(sys.log, sys.self))
  {
    hide Bounded, Open;
    LastDigestSnoc(sys.journal, record, record.ref, StepSimulate, NoDigest);
  }

  lemma StoreReservationKeeps(sys: System, key: ReservationKey, now: nat, storeFault: Fault, at: nat, fault: Fault)
    requires Good(sys) && sys.memory.run.Some? && sys.memory.state.Approved?
    requires key.planId == sys.memory.run.value.ref.planId && key.planRevision == sys.memory.run.value.ref.planRevision
    ensures Good(StoreReservation(sys, sys.memory.run.value, key, now, storeFault, at, fault).sys)
  {
    hide Good, Durable, Open, JournalReservation, Facts, Script, ValidLedger, RunBooked, Acknowledged;
    var run := sys.memory.run.value;
    LiveFacts(sys);
    AcknowledgedOfGood(sys);
    LiveEntry(sys);
    ReserveExtends(sys.ledger, key, now);
    var (ledger, reply) := DriverReservation.Reserve(sys.ledger, key, now);
    LedgerKeeps(sys, ledger);
    var stored := sys.(ledger := ledger);
    RunBookedExtends(run, sys.ledger, ledger);
    RestartKeeps(stored);
    FailKeeps(stored, run);
    if reply.Ok? && reply.value.Fresh? {
      var token := reply.value.token;
      var asked := stored.Log(Granted(token));
      LogKeeps(stored, Granted(token));
      RestartKeeps(asked);
      FailKeeps(asked, run);
      GrantScripted(run, token);
      JournalReservationKeeps(asked, run, token, at, fault);
    }
  }

  lemma JournalReservationKeeps(sys: System, run: Run, token: ReservationToken, at: nat, fault: Fault)
    requires Durable(sys) && Open(sys.journal).Keys == {run.ref} && Open(sys.journal)[run.ref].step.StepApprove?
    requires Open(sys.journal)[run.ref].target == run.Target()
    requires Facts(run.(reservation := Some(token)), 5) && Books(sys.ledger, token.key)
    requires Trail(sys.log, sys.self) == Script(run.(reservation := Some(token)))[..5]
    ensures Good(JournalReservation(sys, run, token, at, fault).sys)
  {
    hide Good, Durable, Open, TracedEntry, WriteJournal;
    var next := run.(reservation := Some(token));
    var record := next.JournalLine(KindAdvance, StepReserve, NoDigest, token.token, at);
    ReservationTraced(sys, Open(sys.journal)[run.ref], record, token);
    MemoryIsNotDurable(sys, Memory(Approved, Some(next)));
    SettleKeeps(sys.With(Approved, next), record, fault, Reserved);
  }

  lemma ReserveKeeps(sys: System, key: ReservationKey, now: nat, storeFault: Fault, at: nat, fault: Fault)
    requires Good(sys)
    ensures Good(DriverLifecycle.Reserve(sys, key, now, storeFault, at, fault).sys)
  {
    hide Good, StoreReservation;
    if Require(sys.memory, Approved) == None {
      PlainEnds(sys);
      if key.planId == sys.memory.run.value.ref.planId && key.planRevision == sys.memory.run.value.ref.planRevision {
        StoreReservationKeeps(sys, key, now, storeFault, at, fault);
      }
    }
  }

  /** Calling the driver is recorded once the APPLY record is on file. */
  lemma LogApplyKeeps(sys: System, request: ApplyRequest)
    requires Durable(sys) && |Trail(sys.log, sys.self)| == 6
    requires forall ref | ref in Open(sys.journal) ::
               var entry := Open(sys.journal)[ref];
               entry.step.StepApply? && request.ref == ref && request.target == entry.target
               && Granted(request.reservation) == Trail(sys.log, sys.self)[4]
    ensures Durable(sys.Log(CalledApply(request)))
    ensures Trail(sys.Log(CalledApply(request)).log, sys.self) == Trail(sys.log, sys.self) + [CalledApply(request)]
  {
    hide Bounded, Open, LastDigest;
    TrailSnoc(sys.log, Entry(sys.self, CalledApply(request)), sys.self);
  }

  lemma ReceiptScripted(run: Run, receipt: ApplyReceipt)
    requires Facts(run, 5) && ValidApplyReceipt(receipt) && BoundTo(receipt, RequestOf(run))
    ensures Facts(run.(receipt := Some(receipt)), 8)
    ensures Script(run.(receipt := Some(receipt)))[..8] == Script(run)[..7] + [AcceptedReceipt(receipt)]
  {
  }

  lemma ReceiptTraced(sys: System, entry: Record, record: Record, receipt: ApplyReceipt)
    requires Durable(sys) && entry.ref in Open(sys.journal) && Open(sys.journal)[entry.ref] == entry
        && entry.step.StepApply?
    requires record.ref == entry.ref && record.target == entry.target && record.reservation == entry.reservation
    requires record.step.StepVerify? && record.ownership == receipt.ownership && record.digest == receipt.appliedDigest
    requires |Trail(sys.log, sys.self)| == 8 && Trail(sys.log, sys.self)[7] == AcceptedReceipt(receipt)
    requires ValidApplyReceipt(receipt) && Trail(sys.log, sys.self)[6].CalledApply?
        && BoundTo(receipt, Trail(sys.log, sys.self)[6].request)
    ensures TracedEntry(sys.journal + [record], record, Trail(sys.log, sys.self))
  {
    hide Bounded, Open;
    LastDigestSnoc(sys.journal, record, record.ref, StepSimulate, NoDigest);
    LastDigestSnoc(sys.journal, record, record.ref, StepApply, NoDigest);
  }

  lemma JournalReceiptKeeps(sys: System, run: Run, receipt: ApplyReceipt, at: nat, fault: Fault)
    requires Durable(sys) && Open(sys.journal).Keys == {run.ref} && Open(sys.journal)[run.ref].step.StepApply?
    requires Open(sys.journal)[run.ref].target == run.Target()
        && Open(sys.journal)[run.ref].reservation == run.Token().key
    requires Facts(run, 5) && ValidApplyReceipt(receipt) && BoundTo(receipt, RequestOf(run))
        && RunBooked(run, sys.ledger)
    requires Trail(sys.log, sys.self) == Script(run)[..7]
    ensures Good(JournalReceipt(sys, run, receipt, at, fault).sys)
  {
    hide Good, Durable, Open, TracedEntry, WriteJournal;
    var next := run.(receipt := Some(receipt));
    var event := AcceptedReceipt(receipt);
    var record := next.JournalLine(KindAdvance, StepVerify, receipt.ownership, receipt.appliedDigest, at);
    LogKeeps(sys, event);
    ReceiptScripted(run, receipt);
    ReceiptTraced(sys.Log(event), Open(sys.journal)[run.ref], record, receipt);
    MemoryIsNotDurable(sys.Log(event), Memory(Reserved, Some(next)));
    SettleKeeps(sys.Log(event).With(Reserved, next), record, fault, Applied);
  }

  lemma CallApplyKeeps(sys: System, run: Run, reply: Reply<ApplyReceipt>, at: nat, fault: Fault)
    requires Durable(sys) && Open(sys.journal).Keys == {run.ref} && Open(sys.journal)[run.ref].step.StepApply?
    requires sys.memory == Memory(Reserved, Some(run))
    requires Open(sys.journal)[run.ref].target == run.Target()
        && Open(sys.journal)[run.ref].reservation == run.Token().key
    requires Facts(run, 5) && RunBooked(run, sys.ledger)
    requires Trail(sys.log, sys.self) == Script(run)[..6]
    ensures Good(CallApply(sys, run, reply, at, fault).sys)
  {
    hide Good, Durable, Open, JournalReceipt, RunBooked;
    LogApplyKeeps(sys, RequestOf(run));
    var called := sys.Log(CalledApply(RequestOf(run)));
    RestartKeeps(called);
    FailKeeps(called, run);
    if reply.Answers? && ValidApplyReceipt(reply.value) && BoundTo(reply.value, RequestOf(run)) {
      ScriptGrows(run, 6);
      JournalReceiptKeeps(called, run, reply.value, at, fault);
    }
  }

  lemma ApplyTraced(sys: System, entry: Record, record: Record)
    requires Durable(sys) && entry.ref in Open(sys.journal) && Open(sys.journal)[entry.ref] == entry
        && entry.step.StepReserve?
    requires record.ref == entry.ref && record.target == entry.target && record.reservation == entry.reservation
        && record.step.StepApply?
    requires ValidDigest(record.digest)
    requires |Trail(sys.log, sys.self)| == 6 && Trail(sys.log, sys.self)[5] == HostUnchanged(record.digest)
    ensures TracedEntry(sys.journal + [record], record, Trail(sys.log, sys.self))
  {
    hide Bounded, Open;
    LastDigestSnoc(sys.journal, record, record.ref, StepSimulate, NoDigest);
    LastDigestSnoc(sys.journal, record, record.ref, StepApply, NoDigest);
  }

  lemma JournalApplyKeeps(sys: System, at: nat, fault: Fault, reply: Reply<ApplyReceipt>, at': nat, fault': Fault)
    requires Good(sys) && sys.memory.run.Some? && sys.memory.state.Reserved?
    ensures Good(JournalApply(sys, sys.memory.run.value, at, fault, reply, at', fault').sys)
  {
    hide Good, Durable, Open, TracedEntry, WriteJournal, CallApply, Script;
    var run := sys.memory.run.value;
    var event := HostUnchanged(run.digest);
    var record := run.JournalLine(KindAdvance, StepApply, NoDigest, run.digest, at);
    LiveFacts(sys);
    LiveEntry(sys);
    LogKeeps(sys, event);
    ScriptGrows(run, 5);
    ScriptAt(run);
    ApplyTraced(sys.Log(event), Open(sys.journal)[run.ref], record);
    WriteKeeps(sys.Log(event), record, fault);
    var written := WriteJournal(sys.Log(event), record, fault);
    RestartKeeps(written.sys);
    FailKeeps(written.sys, run);
    if written.outcome.Done? {
      CallApplyKeeps(written.sys, run, reply, at', fault');
    }
  }

  lemma ScriptGrows(run: Run, phase: nat)
    requires phase < 9
    ensures Script(run)[..phase + 1] == Script(run)[..phase] + [Script(run)[phase]]
  {
  }

  lemma ScriptAt(run: Run)
    ensures Script(run)[5] == HostUnchanged(run.digest)
    ensures Script(run)[6] == CalledApply(RequestOf(run))
  {
  }

  lemma ApplyKeeps(sys: System, capture: Reply<Digest>, at: nat, fault: Fault, reply: Reply<ApplyReceipt>, at': nat,
                   fault': Fault)
    requires Good(sys)
    ensures Good(Apply(sys, capture, at, fault, reply, at', fault').sys)
  {
    hide Good, JournalApply;
    if Require(sys.memory, Reserved) == None {
      PlainEnds(sys);
      JournalApplyKeeps(sys, at, fault, reply, at', fault');
    }
  }

  lemma VerificationScripted(run: Run, result: Verification)
    requires Facts(run, 8) && result.expected == run.Receipt().appliedDigest
    ensures Facts(run.(verification := Some(result)), 9)
    ensures Script(run.(verification := Some(result)))[..9]
        == Script(run)[..8] + [VerifiedHost(run.Receipt().ownership, result.expected)]
  {
  }

  lemma VerifiedKeeps(sys: System, result: Verification)
    requires Good(sys) && sys.memory.run.Some? && sys.memory.state.Applied?
    requires result.expected == sys.memory.run.value.Receipt().appliedDigest
    ensures Good(sys.Log(VerifiedHost(sys.memory.run.value.Receipt().ownership, result.expected))
                    .With(Verified, sys.memory.run.value.(verification := Some(result))))
  {
    hide Good, Durable, Open, Facts, Script, RunBooked;
    var run := sys.memory.run.value;
    var next := run.(verification := Some(result));
    var event := VerifiedHost(run.Receipt().ownership, result.expected);
    LiveFacts(sys);
    LogKeeps(sys, event);
    VerificationScripted(run, result);
    SameBooking(run, next, sys.ledger);
    LiveGood(sys.Log(event), Verified, next);
  }

  lemma VerifyKeeps(sys: System, reply: Reply<Verification>)
    requires Good(sys)
    ensures Good(Verify(sys, reply).sys)
  {
    hide Good;
    if Require(sys.memory, Applied) == None {
      PlainEnds(sys);
      if reply.Answers? {
        var run := sys.memory.run.value;
        FailsAs(sys, run.(verification := Some(reply.value)));
        if reply.value.expected == run.Receipt().appliedDigest {
          VerifiedKeeps(sys, reply.value);
        }
      }
    }
  }

  // ---------------------------------------------------------------- closing a run

  /** What closing a run does to the durable state: releases only extend the ledger, Finish closes the entry. */
  ghost predicate Closes(before: System, turn: Turn) {
    && Durable(turn.sys) && turn.sys.self == before.self && turn.sys.memory == before.memory
        && turn.sys.log == before.log
    && Extends(before.ledger, turn.sys.ledger)
    && (turn.sys.journal == before.journal || Open(turn.sys.journal) == map[])
    && (turn.outcome.Done? ==> Open(turn.sys.journal) == map[])
    && !turn.outcome.Clean?
  }

  lemma FinishKeeps(sys: System, record: Record, fault: Fault)
    requires Durable(sys) && Open(sys.journal).Keys <= {record.ref} && record.kind.KindFinish?
    ensures Closes(sys, WriteJournal(sys, record, fault))
  {
    hide Append, Open, TracedEntry, Bounded, WriteJournal;
    WriteJournalEffect(sys, record, fault);
    if Append(sys.journal, record).Ok? {
      AppendBounded(sys.journal, record);
    }
  }

  /** Receipts are nobody's evidence here: only a run's own memory and journal decide. */
  lemma ReceiptKeeps(sys: System, receipt: Receipt, fault: Fault)
    requires Durable(sys)
    ensures var turn := WriteReceipt(sys, receipt, fault);
      && Durable(turn.sys) && turn.sys == sys.(receipts := turn.sys.receipts) && !turn.outcome.Clean?
  {
    hide Bounded, Open, TracedEntry;
  }

  lemma LedgerOfDurable(sys: System)
    requires Durable(sys)
    ensures ValidLedger(sys.ledger)
  {
  }

  lemma ReleaseSame(ledger: Ledger)
    ensures Extends(ledger, ledger)
  {
  }

  lemma ReleaseKeeps(sys: System, token: ReservationToken, terminal: Step, result: Digest, fault: Fault)
    requires Durable(sys)
    ensures var turn := WriteRelease(sys, token, terminal, result, fault);
      && Durable(turn.sys) && turn.sys == sys.(ledger := turn.sys.ledger) && Extends(sys.ledger, turn.sys.ledger)
          && !turn.outcome.Clean?
  {
    hide Durable, ValidLedger, Extends, Release;
    LedgerOfDurable(sys);
    ReleaseSame(sys.ledger);
    ReleaseExtends(sys.ledger, token, terminal, result);
    match Release(sys.ledger, token, terminal, result)
    case Ok(next) => LedgerKeeps(sys, next);
    case Err(_) =>
  }

  lemma CommitRunKeeps(sys: System, run: Run, reason: ReasonCode, closing: Closing)
    requires Durable(sys) && Open(sys.journal).Keys <= {run.ref}
    ensures Closes(sys, CommitRun(sys, run, reason, closing))
  {
    hide Durable, Open, WriteJournal, WriteRelease, WriteReceipt, ValidReceipt;
    var line := CommitLine(run.Receipt(), reason, closing.now);
    ReceiptKeeps(sys, line, closing.receiptFault);
    var received := WriteReceipt(sys, line, closing.receiptFault);
    ReleaseKeeps(received.sys, run.Token(), StepCommit, ReceiptHash(line), closing.releaseFault);
    var released := WriteRelease(received.sys, run.Token(), StepCommit, ReceiptHash(line), closing.releaseFault);
    FinishKeeps(released.sys,
                run.JournalLine(KindFinish, StepCommit, run.Receipt().ownership, run.Receipt().appliedDigest,
                                closing.at),
                closing.finishFault);
  }

  lemma RevertRunKeeps(sys: System, run: Run, reason: ReasonCode, closing: Closing)
    requires Durable(sys)
    ensures var reverted := RevertRun(sys, run, reason, closing);
      Durable(reverted.sys) && reverted.sys == sys.(receipts := reverted.sys.receipts) && !reverted.outcome.Clean?
  {
    hide Durable, WriteReceipt;
    if closing.driver.Answers? {
      ReceiptKeeps(sys, RollbackLine(closing.driver.value, reason), closing.receiptFault);
    }
  }

  lemma RollbackRunKeeps(sys: System, run: Run, reason: ReasonCode, closing: Closing)
    requires Durable(sys) && Open(sys.journal).Keys <= {run.ref}
    ensures Closes(sys, RollbackRun(sys, run, reason, closing))
  {
    hide Durable, Open, WriteJournal, WriteRelease, RevertRun;
    RevertRunKeeps(sys, run, reason, closing);
    var reverted := RevertRun(sys, run, reason, closing);
    ReleaseKeeps(reverted.sys, run.Token(), StepRollback, reverted.result, closing.releaseFault);
    var released :=
      if run.reservation.None? then Turn(reverted.sys, Done)
      else WriteRelease(reverted.sys, run.Token(), StepRollback, reverted.result, closing.releaseFault);
    FinishKeeps(released.sys,
                run.JournalLine(KindFinish, StepRollback, run.Receipt().ownership, reverted.restored, closing.at),
                closing.finishFault);
  }

  /** A closing turn settles into a terminal state, Failed, or a restart. */
  lemma ClosedKeeps(sys: System, turn: Turn, state: State)
    requires Good(sys) && sys.memory.Active() && Closes(sys, turn) && (state.Committed? || state.RolledBack?)
    ensures Good(Settle(turn, state, Failed).sys)
  {
    hide Durable, Open;
    var run := sys.memory.run.value;
    RestartKeeps(turn.sys);
    RunBookedExtends(run, sys.ledger, turn.sys.ledger);
    FailKeeps(turn.sys, run);
    MemoryIsNotDurable(turn.sys, Memory(state, Some(run)));
  }

  lemma CommitKeeps(sys: System, closing: Closing)
    requires Good(sys)
    ensures Good(Commit(sys, closing).sys)
  {
    hide Durable, Open, CommitRun, Closes;
    if Require(sys.memory, Recorded) == None {
      CommitRunKeeps(sys, sys.memory.run.value, ReasonApplied, closing);
      ClosedKeeps(sys, CommitRun(sys, sys.memory.run.value, ReasonApplied, closing), Committed);
    }
  }

  lemma RollbackKeeps(sys: System, closing: Closing)
    requires Good(sys)
    ensures Good(Rollback(sys, closing).sys)
  {
    hide Durable, Open, RollbackRun, Closes;
    if sys.memory.Active() {
      RollbackRunKeeps(sys, sys.memory.run.value, ReasonRolledBack, closing);
      ClosedKeeps(sys, RollbackRun(sys, sys.memory.run.value, ReasonRolledBack, closing), RolledBack);
    }
  }

  lemma WriteReceiptsKeeps(sys: System, run: Run, verification: Verification, first: Fault, second: Fault)
    requires Durable(sys)
    ensures var turn := WriteReceipts(sys, run, verification, first, second);
      Durable(turn.sys) && turn.sys == sys.(receipts := turn.sys.receipts) && !turn.outcome.Clean?
  {
    hide Durable, WriteReceipt;
    ReceiptKeeps(sys, ApplyLine(run.Receipt()), first);
    ReceiptKeeps(WriteReceipt(sys, ApplyLine(run.Receipt()), first).sys, VerifyLine(run.Receipt(), verification),
                 second);
  }

  lemma RecordKeeps(sys: System, at: nat, fault: Fault, first: Fault, second: Fault)
    requires Good(sys)
    ensures Good(RecordRun(sys, at, fault, first, second).sys)
  {
    hide Good, Durable, Open, TracedEntry, WriteJournal, WriteReceipts, Facts, Script, RunBooked, Acknowledged;
    if Require(sys.memory, Verified) == None {
      var run := sys.memory.run.value;
      var record := run.JournalLine(KindAdvance, StepRecord, run.Receipt().ownership, run.Receipt().appliedDigest, at);
      LiveFacts(sys);
      LiveEntry(sys);
      StillTraced(sys, Open(sys.journal)[run.ref], record);
      BookedKey(run, sys.ledger);
      WriteKeeps(sys, record, fault);
      var written := WriteJournal(sys, record, fault);
      AcknowledgedOfGood(sys);
      AdvanceAcknowledged(run, Recorded, sys.journal, written.sys.journal, record);
      RestartKeeps(written.sys);
      FailKeeps(written.sys, run);
      if written.outcome.Done? {
        WriteReceiptsKeeps(written.sys, run, run.Verification(), first, second);
        var lined := WriteReceipts(written.sys, run, run.Verification(), first, second);
        RestartKeeps(lined.sys);
        FailKeeps(lined.sys, run);
        LiveGood(lined.sys, Recorded, run);
      }
    }
  }

  lemma BookedKey(run: Run, ledger: Ledger)
    requires RunBooked(run, ledger)
    ensures run.Token().key != NO_KEY ==> Books(ledger, run.Token().key)
  {
  }

  // ---------------------------------------------------------------- recovery

  lemma RecoverEntryKeeps(sys: System, entry: Record, records: seq<Record>, rescue: Rescue)
    requires Durable(sys) && Open(sys.journal).Keys <= {entry.ref}
    ensures var turn := RecoverEntry(sys, entry, records, rescue);
      && Durable(turn.sys) && turn.sys.self == sys.self && turn.sys.memory == sys.memory
      && (turn.sys.journal == sys.journal || Open(turn.sys.journal) == map[])
      && (turn.outcome.Done? ==> Open(turn.sys.journal) == map[])
  {
    hide Durable, Open, RollbackRun, CommitRun, WriteReceipts;
    var run := Rebuilt(entry);
    var receipt := RebuiltReceipt(records, entry);
    var applied := run.(receipt := Some(receipt));
    RollbackRunKeeps(sys, run, ReasonRecoveryRollback, rescue.closing);
    RollbackRunKeeps(sys, applied, ReasonRecoveryRollback, rescue.closing);
    if Confirms(records, entry, rescue) {
      var event := Reverified(receipt.ownership, receipt.appliedDigest);
      ReverifiedKeeps(sys, event);
      WriteReceiptsKeeps(sys.Log(event), applied, rescue.verify.value, rescue.first, rescue.second);
      var lined := WriteReceipts(sys.Log(event), applied, rescue.verify.value, rescue.first, rescue.second);
      CommitRunKeeps(lined.sys, applied, ReasonRecoveryCommit, rescue.closing);
    }
  }

  lemma ReverifiedKeeps(sys: System, event: Event)
    requires Durable(sys) && event.Reverified?
    ensures Durable(sys.Log(event))
  {
    hide Bounded, Open, TracedEntry;
    TrailSnoc(sys.log, Entry(sys.self, event), sys.self);
  }

  /** A journal with at most one open entry has at most one entry in flight. */
  lemma OneInFlight(journal: seq<Record>)
    requires Bounded(journal) && Open(journal) != map[]
    ensures exists ref ::
              && ref in Open(journal) && Open(journal).Keys == {ref}
              && InFlight(Open(journal)) == [Open(journal)[ref]]
  {
    hide Open, Check, InFlight, RefLess;
    var open := Open(journal);
    var ref :| ref in open;
    assert open.Keys == {ref};
    var list := InFlight(open);
    assert open[ref] in list;
    if |list| > 1 {
      assert RefLess(list[0].ref, list[1].ref);
      RefLessTotal(ref, ref, ref);
    }
  }

  lemma RecoverKeeps(sys: System, env: RecoverEnv)
    requires Good(sys)
    ensures Good(Recover(sys, env).sys)
  {
    hide Durable, Open, RecoverEntry, InFlight;
    RestartOfGood(sys);
    if Open(sys.journal) != map[] && !sys.memory.Active() {
      BoundedOfGood(sys);
      OneInFlight(sys.journal);
      var ref :| ref in Open(sys.journal) && Open(sys.journal).Keys == {ref}
          && InFlight(Open(sys.journal)) == [Open(sys.journal)[ref]];
      if env.rescues != [] {
        RecoverEntryKeeps(sys, Open(sys.journal)[ref], sys.journal, env.rescues[0]);
        var turn := RecoverEntry(sys, Open(sys.journal)[ref], sys.journal, env.rescues[0]);
        assert RecoverEntries(sys, InFlight(Open(sys.journal)), sys.journal, env.rescues) == turn;
        RestartKeeps(turn.sys);
      }
    }
  }

  lemma RestartOfGood(sys: System)
    requires Good(sys)
    ensures Good(sys.Restart())
  {
    RestartKeeps(sys);
  }

  lemma BoundedOfGood(sys: System)
    requires Good(sys)
    ensures Bounded(sys.journal)
  {
  }

  // ---------------------------------------------------------------- every call, every run

  lemma PerformKeeps(sys: System, action: Action)
    requires Good(sys)
    ensures Good(Perform(sys, action).sys)
  {
    hide Good, Begin, Capture, Simulate, Approve, DriverLifecycle.Reserve, Apply, Verify, RecordRun, Commit, Rollback,
         Recover;
    match action
    case DoBegin(ref, readable, at, fault) => BeginKeeps(sys, ref, readable, at, fault);
    case DoCapture(scopeValid, capture) => CaptureKeeps(sys, scopeValid, capture);
    case DoSimulate(operation, simulation, at, fault) => SimulateKeeps(sys, operation, simulation, at, fault);
    case DoApprove(approval, at, fault) => ApproveKeeps(sys, approval, at, fault);
    case DoReserve(key, now, storeFault, at, fault) => ReserveKeeps(sys, key, now, storeFault, at, fault);
    case DoApply(capture, at, fault, receipt, at', fault') => ApplyKeeps(sys, capture, at, fault, receipt, at', fault');
    case DoVerify(verification) => VerifyKeeps(sys, verification);
    case DoRecord(at, fault, first, second) => RecordKeeps(sys, at, fault, first, second);
    case DoCommit(closing) => CommitKeeps(sys, closing);
    case DoRollback(closing) => RollbackKeeps(sys, closing);
    case DoRecover(env) => RecoverKeeps(sys, env);
    case DoRestart => RestartOfGood(sys);
  }
}
