/**
  When the telemetry queue does lose an event or stops delivering (agent/runtime/queue.go:150-272,
  agent/runtime/loop.go:121-139): acknowledgement removes by id, and enqueue admits events that no
  batch can deliver.
*/
module QueueLoss {
  import opened Common
  import opened QueueModel

  /** Memory and file hold the same events, and every enqueued event is still queued or was accepted. */
  ghost predicate Intact(world: World) {
    && world.queue.memory.events == world.queue.file.events
    && Retained(world.enqueued, world.queue.memory.events, world.accepted)
  }

  /** A queued event that shares its id with the batch without being in it, and has not been accepted. */
  ghost predicate Endangers(world: World, batch: seq<Event>, event: Event) {
    && event in world.enqueued && event in Events(world.queue.memory.events) && event.id in Ids(batch)
    && event !in batch && event !in world.accepted
  }

  ghost predicate Ambiguous(world: World, batch: seq<Event>) {
    exists event :: Endangers(world, batch, event)
  }

  // ---------------------------------------------------------------- one acknowledged round

  /**
    One acknowledgement, for every queue: the events of the queue all remain or were sent if and only
    if every queued event that shares an id with the batch is itself in the batch.
  */
  lemma AcknowledgeLosesNothing(queue: Queue, sent: seq<Event>, fault: Fault)
    requires sent != [] && "" !in Ids(sent) && Acknowledge(queue, sent, fault).1.Done?
    ensures var before, after := Events(queue.memory.events), Events(Acknowledge(queue, sent, fault).0.memory.events);
      (forall event | event in before :: event in after || event in sent)
      <==> (forall event | event in before && event.id in Ids(sent) :: event in sent)
  {
    hide Keep, Ids;
    KeepMeaning(queue.memory.events, Ids(sent));
  }

  lemma RoundExact(world: World, batch: seq<Event>, fault: Fault)
    requires Intact(world) && batch != [] && "" !in Ids(batch)
    requires forall event | event in batch :: event in Events(world.queue.memory.events)
    ensures var queue := Acknowledge(world.queue, batch, fault).0;
      var next := world.(queue := queue, accepted := world.accepted + Set(batch));
      && next.queue.memory.events == next.queue.file.events
      && (Intact(next) <==> !(Lands(fault) && Ambiguous(world, batch)))
      && (forall event | event in Events(queue.memory.events) :: event in Events(world.queue.memory.events))
  {
    hide Keep;
    var events, ids := world.queue.memory.events, Ids(batch);
    KeepMeaning(events, ids);
    assert batch[0] in Events(events) && batch[0].id in ids;
    var next := world.(queue := Acknowledge(world.queue, batch, fault).0, accepted := world.accepted + Set(batch));
    assert forall event :: event in Set(batch) <==> event in batch;
    if Lands(fault) && Ambiguous(world, batch) {
      var event :| Endangers(world, batch, event);
      assert event !in Events(next.queue.memory.events) && event !in next.accepted;
    }
    if !(Lands(fault) && Ambiguous(world, batch)) {
      forall event | event in world.enqueued
        ensures event in Events(next.queue.memory.events) || event in next.accepted
      {
        assert !(Lands(fault) && Endangers(world, batch, event));
      }
    }
  }

  // ---------------------------------------------------------------- one drain

  /** Some round of the drain installs an acknowledgement of a batch that is ambiguous at that moment. */
  ghost predicate DrainDrops(world: World, node: string, rounds: seq<Round>)
    decreases |rounds|
  {
    var batch := Batch(world.queue.memory, node, DRAIN_BATCH);
    && batch.Ok? && batch.value != [] && rounds != [] && rounds[0].submission.Accepted?
    && var (queue, outcome) := Acknowledge(world.queue, batch.value, rounds[0].fault);
       || (Lands(rounds[0].fault) && Ambiguous(world, batch.value))
       || (outcome.Done?
           && DrainDrops(world.(queue := queue, accepted := world.accepted + Set(batch.value)), node, rounds[1..]))
  }

  /** Neither queued nor accepted. */
  ghost predicate Gone(world: World, event: Event) {
    event !in Events(world.queue.memory.events) && event !in Events(world.queue.file.events) && event !in world.accepted
  }

  lemma BatchQueued(state: State, node: string)
    requires Batch(state, node, DRAIN_BATCH).Ok?
    ensures var batch := Batch(state, node, DRAIN_BATCH).value;
      (forall event | event in batch :: event in Events(state.events)) && "" !in Ids(batch)
  {
    hide Batch;
    BatchMeaning(state, node, DRAIN_BATCH);
  }

  lemma {:induction false} GoneForTheDrain(world: World, node: string, rounds: seq<Round>, event: Event)
    requires Gone(world, event)
    ensures var end := Drain(world, node, rounds).0; Gone(end, event) && end.enqueued == world.enqueued
    decreases |rounds|
  {
    hide Batch, Acknowledge;
    var batch := Batch(world.queue.memory, node, DRAIN_BATCH);
    if batch.Ok? && batch.value != [] && rounds != [] && rounds[0].submission.Accepted? {
      BatchQueued(world.queue.memory, node);
      var (queue, outcome) := Acknowledge(world.queue, batch.value, rounds[0].fault);
      AcknowledgeShrinks(world.queue, batch.value, rounds[0].fault);
      var next := world.(queue := queue, accepted := world.accepted + Set(batch.value));
      assert Gone(next, event);
      if outcome.Done? {
        GoneForTheDrain(next, node, rounds[1..], event);
      }
    }
  }

  lemma AcknowledgeShrinks(queue: Queue, sent: seq<Event>, fault: Fault)
    ensures var next := Acknowledge(queue, sent, fault).0;
      forall event :: event in Events(next.memory.events) || event in Events(next.file.events)
        ==> event in Events(queue.memory.events) || event in Events(queue.file.events)
  {
    hide Keep, Ids;
    KeepMeaning(queue.memory.events, Ids(sent));
  }

  lemma {:induction false} DrainExact(world: World, node: string, rounds: seq<Round>)
    requires Intact(world)
    ensures var end := Drain(world, node, rounds).0;
      && end.queue.memory.events == end.queue.file.events && (Intact(end) <==> !DrainDrops(world, node, rounds))
    decreases |rounds|
  {
    hide Batch, Acknowledge, Ambiguous, Retained;
    var batch := Batch(world.queue.memory, node, DRAIN_BATCH);
    if batch.Ok? && batch.value != [] && rounds != [] && rounds[0].submission.Accepted? {
      BatchQueued(world.queue.memory, node);
      RoundExact(world, batch.value, rounds[0].fault);
      var (queue, outcome) := Acknowledge(world.queue, batch.value, rounds[0].fault);
      var next := world.(queue := queue, accepted := world.accepted + Set(batch.value));
      if outcome.Done? && Intact(next) {
        DrainExact(next, node, rounds[1..]);
      } else if outcome.Done? {
        DroppedForTheDrain(next, node, rounds[1..]);
      }
    }
  }

  lemma DroppedForTheDrain(world: World, node: string, rounds: seq<Round>)
    requires world.queue.memory.events == world.queue.file.events && !Intact(world)
    ensures var end := Drain(world, node, rounds).0; end.queue.memory.events == end.queue.file.events && !Intact(end)
  {
    hide Drain;
    var event :| event in world.enqueued && event !in Events(world.queue.memory.events) && event !in world.accepted;
    GoneForTheDrain(world, node, rounds, event);
    DrainSynced(world, node, rounds);
  }

  lemma {:induction false} DrainSynced(world: World, node: string, rounds: seq<Round>)
    requires world.queue.memory.events == world.queue.file.events
    ensures var end := Drain(world, node, rounds).0; end.queue.memory.events == end.queue.file.events
    decreases |rounds|
  {
    hide Batch, Keep, Ids;
    var batch := Batch(world.queue.memory, node, DRAIN_BATCH);
    if batch.Ok? && batch.value != [] && rounds != [] && rounds[0].submission.Accepted? {
      var (queue, outcome) := Acknowledge(world.queue, batch.value, rounds[0].fault);
      if outcome.Done? {
        DrainSynced(world.(queue := queue, accepted := world.accepted + Set(batch.value)), node, rounds[1..]);
      }
    }
  }

  // ---------------------------------------------------------------- every run

  ghost predicate Drops(world: World, node: string, action: Action) {
    action.DoDrain? && DrainDrops(world, node, action.rounds)
  }

  lemma PerformExact(world: World, node: string, action: Action)
    requires Intact(world)
    ensures Intact(Perform(world, node, action)) <==> !Drops(world, node, action)
  {
    hide Drain, DrainDrops;
    match action
    case DoDrain(rounds) => DrainExact(world, node, rounds);
    case DoEnqueue(entries, fault) => EnqueueIntact(world, node, entries, fault);
    case _ =>
  }

  lemma EnqueueIntact(world: World, node: string, entries: seq<Stored>, fault: Fault)
    requires Intact(world)
    ensures Intact(Perform(world, node, DoEnqueue(entries, fault)))
  {
    var events := world.queue.memory.events;
    assert forall i | 0 <= i < |events| :: Events(events + entries)[i] == Events(events)[i];
    assert forall i | 0 <= i < |entries| :: Events(events + entries)[|events| + i] == Events(entries)[i];
  }

  ghost predicate NeverDrops(world: World, node: string, actions: seq<Action>)
    decreases |actions|
  {
    actions != [] ==>
      && !Drops(world, node, actions[0])
      && NeverDrops(Perform(world, node, actions[0]), node, actions[1..])
  }

  ghost predicate AlwaysIntact(world: World, node: string, actions: seq<Action>)
    decreases |actions|
  {
    Intact(world) && (actions != [] ==> AlwaysIntact(Perform(world, node, actions[0]), node, actions[1..]))
  }

  /** With or without distinct ids: a run loses nothing at any time if and only if none of its drains drops anything. */
  lemma {:induction false} RunLosesNothingExactly(world: World, node: string, actions: seq<Action>)
    requires Intact(world)
    ensures AlwaysIntact(world, node, actions) <==> NeverDrops(world, node, actions)
    decreases |actions|
  {
    hide Intact, Drops, Perform;
    if actions != [] {
      PerformExact(world, node, actions[0]);
      var next := Perform(world, node, actions[0]);
      if Intact(next) {
        RunLosesNothingExactly(next, node, actions[1..]);
      } else {
        assert !AlwaysIntact(next, node, actions[1..]);
      }
    }
  }

  /** Distinct ids are never ambiguous, which is how they keep everything. */
  lemma DistinctIsUnambiguous(world: World, batch: seq<Event>)
    requires DistinctIds(world.queue.memory.events)
    requires forall event | event in batch :: event in Events(world.queue.memory.events)
    ensures !Ambiguous(world, batch)
  {
    hide DistinctIds;
    forall event | Endangers(world, batch, event)
      ensures false
    {
      var i :| 0 <= i < |batch| && batch[i].id == event.id;
      OneEventPerId(world.queue.memory.events, event, batch[i]);
    }
  }

  // ---------------------------------------------------------------- two concrete runs

  /**
    From a first start: two events of different boots share an id, and the second is removed without
    being submitted.
  */
  lemma SharedIdIsLost(node: string)
    ensures var a, b := Event("x", 1, node, "boot-1", ""), Event("x", 2, node, "boot-2", "");
      var before := Perform(FIRST_START, node, DoEnqueue([Stored(0, a), Stored(0, b)], Healthy));
      var after := Perform(before, node, DoDrain([Round(Accepted, Healthy)]));
      b in before.enqueued && b !in Events(after.queue.memory.events) && b !in after.accepted
  {
    hide Batch, Acknowledge, Drain;
    var a, b := Event("x", 1, node, "boot-1", ""), Event("x", 2, node, "boot-2", "");
    var stored := [Stored(0, a), Stored(0, b)];
    var before := Perform(FIRST_START, node, DoEnqueue(stored, Healthy));
    assert Events(stored) == [a, b];
    assert before.queue.memory == State(0, stored) && before.enqueued == Set([a, b]) && [a, b][1] == b;
    FirstBatch(node, a, b);
    FirstAcknowledgement(before.queue, a, b);
    var next := before.(queue := Acknowledge(before.queue, [a], Healthy).0, accepted := before.accepted + Set([a]));
    assert Drain(next, node, []) == (next, Done) by { NothingToDrain(next, node); }
    OneRound(before, node, [a], next);
  }

  lemma FirstBatch(node: string, a: Event, b: Event)
    requires Deliverable(a, node) && Deliverable(b, node) && a.boot != b.boot
    ensures Batch(State(0, [Stored(0, a), Stored(0, b)]), node, DRAIN_BATCH) == Ok([a])
  {
    var stored := [Stored(0, a), Stored(0, b)];
    assert stored[1..] == [Stored(0, b)] && stored[1..][1..] == [];
    assert Select(stored[1..][1..], node, a.boot, 255) == Ok([]);
    assert Select(stored[1..], node, a.boot, 255) == Ok([]);
    assert [a] + [] == [a] && [a][1..] == [] && Sort([a]) == [a];
  }

  lemma FirstAcknowledgement(queue: Queue, a: Event, b: Event)
    requires queue.memory.events == [Stored(0, a), Stored(0, b)] && a.id == b.id != ""
    ensures var (next, outcome) := Acknowledge(queue, [a], Healthy); outcome.Done? && next.memory.events == []
  {
    var stored := queue.memory.events;
    assert [a][0].id in Ids([a]) && "" !in Ids([a]);
    assert stored[1..] == [Stored(0, b)] && stored[1..][1..] == [];
    assert Keep(stored[1..], Ids([a])) == [] && Keep(stored, Ids([a])) == [];
  }

  lemma NothingToDrain(world: World, node: string)
    requires world.queue.memory.events == []
    ensures Drain(world, node, []) == (world, Done)
  {
  }

  lemma {:induction false} OneRound(world: World, node: string, batch: seq<Event>, next: World)
    requires Batch(world.queue.memory, node, DRAIN_BATCH) == Ok(batch) && batch != []
    requires Acknowledge(world.queue, batch, Healthy).1.Done? && Drain(next, node, []) == (next, Done)
    requires next == world.(queue := Acknowledge(world.queue, batch, Healthy).0,
                            accepted := world.accepted + Set(batch))
    ensures Drain(world, node, [Round(Accepted, Healthy)]) == (next, Done)
  {
    hide Batch, Acknowledge;
    assert [Round(Accepted, Healthy)][1..] == [];
  }

  // ---------------------------------------------------------------- an event that blocks

  /** An undeliverable event is first in memory and in the file. */
  predicate Blocked(world: World, node: string, event: Event) {
    && world.queue.memory.events == world.queue.file.events && world.queue.memory.events != []
    && world.queue.memory.events[0].event == event && !Deliverable(event, node)
  }

  /** Behind an undeliverable event at the front nothing is delivered any more, whatever is called. */
  lemma {:induction false} BlockedForever(world: World, node: string, event: Event, actions: seq<Action>)
    requires Blocked(world, node, event)
    ensures var end := Play(world, node, actions); Blocked(end, node, event) && end.accepted == world.accepted
    decreases |actions|
  {
    hide Perform, Blocked;
    if actions != [] {
      BlockedStays(world, node, event, actions[0]);
      BlockedForever(Perform(world, node, actions[0]), node, event, actions[1..]);
    }
  }

  lemma BlockedStays(world: World, node: string, event: Event, action: Action)
    requires Blocked(world, node, event)
    ensures var next := Perform(world, node, action); Blocked(next, node, event) && next.accepted == world.accepted
    ensures action.DoDrain? ==> Drain(world, node, action.rounds) == (world, Refused(Invalid))
  {
  }

  /**
    Enqueue admits an event without a boot id, and when it is first nothing is ever delivered: after any
    calls it is still queued and enqueued, and nothing has been accepted.
  */
  lemma BootlessEventBlocks(node: string, id: string, sequence: nat, payload: string, actions: seq<Action>)
    requires id != "" && sequence != 0
    ensures var event := Event(id, sequence, node, "", payload);
      var admitted := Perform(FIRST_START, node, DoEnqueue([Stored(0, event)], Healthy));
      var end := Play(admitted, node, actions);
      && event in admitted.enqueued && Blocked(end, node, event) && end.accepted == {}
      && forall rounds :: Drain(end, node, rounds) == (end, Refused(Invalid))
  {
    hide Play;
    var event := Event(id, sequence, node, "", payload);
    var admitted := Perform(FIRST_START, node, DoEnqueue([Stored(0, event)], Healthy));
    assert Events([Stored(0, event)])[0] == event;
    BlockedForever(admitted, node, event, actions);
    var end := Play(admitted, node, actions);
    forall rounds
      ensures Drain(end, node, rounds) == (end, Refused(Invalid))
    {
      BlockedStays(end, node, event, DoDrain(rounds));
    }
  }
}
