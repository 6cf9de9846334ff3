/**
  The Queue object with its file and the Loop that fills and drains it
  (agent/runtime/queue.go:125-338, agent/runtime/loop.go:96-139), each method proved to be the
  transition of the queue model.  A method that reports Died has reloaded the state from the file,
  as the next process does.
*/
module QueueObject {
  import opened Common
  import opened QueueModel

  class QueueFile {
    var saved: State

    constructor ()
      ensures saved == EMPTY
    {
      saved := EMPTY;
    }
  }

  class AgentQueue {
    const node: string
    const file: QueueFile
    var state: State

    function Contents(): Queue
      reads this, file
    {
      Queue(state, file.saved)
    }

    constructor (node: string, file: QueueFile)
      ensures this.node == node && this.file == file && Contents() == Queue(file.saved, file.saved)
    {
      this.node, this.file, state := node, file, file.saved;
    }

    /** Installs the state as a whole and says whether it did, which an error alone does not tell. */
    method Install(fault: Fault) returns (installed: bool, outcome: Outcome)
      modifies file, this
      ensures installed == Lands(fault) && outcome == Verdict(fault)
      ensures file.saved == if installed then old(state) else old(file.saved)
      ensures state == if outcome.Died? then file.saved else old(state)
    {
      installed := Lands(fault);
      if installed {
        file.saved := state;
      }
      outcome := Verdict(fault);
      if outcome.Died? {
        state := file.saved;
      }
    }

    method Next(fault: Fault) returns (outcome: Outcome, number: nat)
      modifies this, file
      ensures (Contents(), outcome) == NextSequence(old(Contents()), fault)
      ensures outcome.Done? ==> number == state.last
    {
      if state.last == MAX_UINT64 {
        return Refused(Exhausted), 0;
      }
      state := state.(last := state.last + 1);
      var installed;
      installed, outcome := Install(fault);
      number := state.last;
    }

    method EnqueueBatch(entries: seq<Stored>, fault: Fault) returns (outcome: Outcome)
      modifies this, file
      ensures (Contents(), outcome) == Enqueue(old(Contents()), node, entries, fault)
    {
      if |entries| == 0 {
        return Refused(Invalid);
      }
      for i := 0 to |entries|
        invariant unchanged(this) && unchanged(file)
        invariant forall k | 0 <= k < i :: Enqueuable(entries[k].event, node)
      {
        if !Enqueuable(entries[i].event, node) {
          return Refused(Invalid);
        }
      }
      if |entries| > MAXIMUM_EVENTS - |state.events| {
        return Refused(Full);
      }
      var original := state;
      state := state.(events := state.events + entries);
      var installed;
      installed, outcome := Install(fault);
      if outcome.Refused? && !installed {
        state := original;
      }
    }

    method NextBatch(maximum: nat) returns (reply: Result<seq<Event>, Problem>)
      ensures reply == Batch(state, node, maximum)
    {
      if maximum < 1 || maximum > 256 {
        return Err(Invalid);
      }
      var selected := SelectEvents(state.events, node, maximum);
      if selected.Err? {
        return selected;
      }
      var sorted := SortEvents(selected.value);
      reply := Ok(sorted);
    }

    method AcknowledgeBatch(sent: seq<Event>, fault: Fault) returns (outcome: Outcome)
      modifies this, file
      ensures (Contents(), outcome) == Acknowledge(old(Contents()), sent, fault)
    {
      if |sent| == 0 {
        return Refused(Invalid);
      }
      var ids: set<string> := {};
      for i := 0 to |sent|
        invariant unchanged(this) && unchanged(file)
        invariant ids == Ids(sent[..i]) && "" !in ids
      {
        if sent[i].id == "" {
          assert sent[i].id in Ids(sent);
          return Refused(Invalid);
        }
        assert Ids(sent[..i + 1]) == Ids(sent[..i]) + {sent[i].id} by { IdsSnoc(sent, i); }
        ids := ids + {sent[i].id};
      }
      assert sent[..|sent|] == sent;
      var kept := KeepUnsent(state.events, ids);
      if |kept| == |state.events| {
        return Refused(Unmatched);
      }
      var original := state;
      state := state.(events := kept);
      var installed;
      installed, outcome := Install(fault);
      if outcome.Refused? && !installed {
        state := original;
      }
    }
  }

  lemma IdsSnoc(sent: seq<Event>, i: nat)
    requires i < |sent|
    ensures Ids(sent[..i + 1]) == Ids(sent[..i]) + {sent[i].id}
  {
    forall id | id in Ids(sent[..i]) + {sent[i].id}
      ensures id in Ids(sent[..i + 1])
    {
      if id == sent[i].id {
        assert sent[..i + 1][i].id == id;
      } else {
        var k :| 0 <= k < i && sent[..i][k].id == id;
        assert sent[..i + 1][k].id == id;
      }
    }
  }

  /** The scan of Batch: the first boot it meets decides which events it takes. */
  method SelectEvents(events: seq<Stored>, node: string, maximum: nat) returns (reply: Result<seq<Event>, Problem>)
    ensures reply == Select(events, node, "", maximum)
  {
    var values: seq<Event> := [];
    var boot := "";
    assert events[0..] == events;
    PrependNothing(Select(events, node, "", maximum));
    for i := 0 to |events|
      invariant |values| <= maximum
      invariant Select(events, node, "", maximum)
          == Prepend(values, Select(events[i..], node, boot, maximum - |values|))
    {
      ghost var rest := events[i..];
      assert rest[0] == events[i] && rest[1..] == events[i + 1..];
      if |values| == maximum {
        assert values + [] == values;
        return Ok(values);
      }
      var event := events[i].event;
      if !Deliverable(event, node) {
        return Err(Invalid);
      }
      if boot == "" {
        boot := event.boot;
      }
      if event.boot == boot {
        PrependOne(values, event, Select(events[i + 1..], node, boot, maximum - |values| - 1));
        values := values + [event];
      }
    }
    assert values + [] == values;
    reply := Ok(values);
  }

  function Prepend(values: seq<Event>, read: Result<seq<Event>, Problem>): Result<seq<Event>, Problem> {
    match read
    case Err(problem) => Err(problem)
    case Ok(more) => Ok(values + more)
  }

  lemma PrependNothing(read: Result<seq<Event>, Problem>)
    ensures Prepend([], read) == read
  {
    if read.Ok? {
      assert [] + read.value == read.value;
    }
  }

  lemma PrependOne(values: seq<Event>, event: Event, read: Result<seq<Event>, Problem>)
    ensures Prepend(values, Prepend([event], read)) == Prepend(values + [event], read)
  {
    if read.Ok? {
      assert values + ([event] + read.value) == (values + [event]) + read.value;
    }
  }

  method SortEvents(events: seq<Event>) returns (sorted: seq<Event>)
    ensures sorted == Sort(events)
  {
    sorted := [];
    var i := |events|;
    assert events[|events|..] == [];
    while i > 0
      invariant 0 <= i <= |events| && sorted == Sort(events[i..])
    {
      i := i - 1;
      assert events[i..][0] == events[i] && events[i..][1..] == events[i + 1..];
      sorted := Insert(events[i], sorted);
    }
    assert events[0..] == events;
  }

  method KeepUnsent(events: seq<Stored>, ids: set<string>) returns (kept: seq<Stored>)
    ensures kept == Keep(events, ids)
  {
    kept := [];
    assert events[0..] == events;
    for i := 0 to |events|
      invariant Keep(events, ids) == kept + Keep(events[i..], ids)
    {
      assert events[i..][0] == events[i] && events[i..][1..] == events[i + 1..];
      if events[i].event.id !in ids {
        assert kept + ([events[i]] + Keep(events[i + 1..], ids)) == (kept + [events[i]]) + Keep(events[i + 1..], ids);
        kept := kept + [events[i]];
      } else {
        assert [] + Keep(events[i + 1..], ids) == Keep(events[i + 1..], ids);
      }
    }
    assert kept + [] == kept;
  }

  // ---------------------------------------------------------------- the loop

  /** What the collector and the builder contribute to one event besides its number. */
  datatype Observation = Observation(id: string, payload: string, priority: nat, fault: Fault)

  /** One number per observation, each saved before it is used. */
  function Build(world: World, node: string, boot: string,
                 observations: seq<Observation>): (World, Outcome, seq<Stored>)
    decreases |observations|
  {
    if observations == [] then (world, Done, [])
    else
      var first := observations[0];
      var (queue, outcome) := NextSequence(world.queue, first.fault);
      var next := Perform(world, node, DoNext(first.fault));
      if !outcome.Done? then (next, outcome, [])
      else
        var (end, last, more) := Build(next, node, boot, observations[1..]);
        (end, last, [Stored(first.priority, Event(first.id, queue.memory.last, node, boot, first.payload))] + more)
  }

  function RunCycle(world: World, node: string, boot: string, observations: seq<Observation>, fault: Fault,
                    rounds: seq<Round>): (World, Outcome) {
    var (built, outcome, entries) := Build(world, node, boot, observations);
    if !outcome.Done? then (built, outcome)
    else if entries == [] then Drain(built, node, rounds)
    else
      var enqueued := Enqueue(built.queue, node, entries, fault).1;
      var next := Perform(built, node, DoEnqueue(entries, fault));
      if enqueued.Done? then Drain(next, node, rounds) else (next, enqueued)
  }

  class Loop {
    const queue: AgentQueue
    const boot: string
    ghost var handed: seq<nat>
    ghost var enqueued: set<Event>
    ghost var accepted: set<Event>

    ghost function Contents(): World
      reads this, queue, queue.file
    {
      World(queue.Contents(), handed, enqueued, accepted)
    }

    constructor (queue: AgentQueue, boot: string)
      ensures this.queue == queue && this.boot == boot && Contents() == World(queue.Contents(), [], {}, {})
    {
      this.queue, this.boot, handed, enqueued, accepted := queue, boot, [], {}, {};
    }

    /** Ends because every acknowledged round leaves fewer events. */
    method DrainQueue(rounds: seq<Round>) returns (outcome: Outcome)
      modifies this, queue, queue.file
      ensures (Contents(), outcome) == Drain(old(Contents()), queue.node, rounds)
    {
      var i := 0;
      assert rounds[0..] == rounds;
      while true
        invariant 0 <= i <= |rounds|
        invariant Drain(old(Contents()), queue.node, rounds) == Drain(Contents(), queue.node, rounds[i..])
        decreases |queue.state.events|
      {
        var batch := queue.NextBatch(DRAIN_BATCH);
        if batch.Err? {
          return Refused(batch.error);
        }
        if |batch.value| == 0 {
          return Done;
        }
        if i == |rounds| || rounds[i].submission.Crashed? {
          queue.state := queue.file.saved;
          return Died;
        }
        if rounds[i].submission.Rejected? {
          return Refused(NotSubmitted);
        }
        accepted := accepted + Set(batch.value);
        AcknowledgeShrinks(queue.Contents(), batch.value, rounds[i].fault);
        outcome := queue.AcknowledgeBatch(batch.value, rounds[i].fault);
        if !outcome.Done? {
          return;
        }
        assert rounds[i..][1..] == rounds[i + 1..];
        i := i + 1;
      }
    }

    method RunOnce(observations: seq<Observation>, fault: Fault, rounds: seq<Round>) returns (outcome: Outcome)
      modifies this, queue, queue.file
      ensures (Contents(), outcome) == RunCycle(old(Contents()), queue.node, boot, observations, fault, rounds)
    {
      hide NextSequence, Enqueue, Drain;
      var entries;
      outcome, entries := BuildEntries(observations);
      if !outcome.Done? {
        return;
      }
      if |entries| != 0 {
        outcome := queue.EnqueueBatch(entries, fault);
        if !outcome.Done? {
          return;
        }
        enqueued := enqueued + Set(Events(entries));
      }
      outcome := DrainQueue(rounds);
    }

    method BuildEntries(observations: seq<Observation>) returns (outcome: Outcome, entries: seq<Stored>)
      modifies this, queue, queue.file
      ensures (Contents(), outcome) == (Build(old(Contents()), queue.node, boot, observations).0,
                                        Build(old(Contents()), queue.node, boot, observations).1)
      ensures outcome.Done? ==> entries == Build(old(Contents()), queue.node, boot, observations).2
    {
      hide NextSequence, Build;
      outcome, entries := Done, [];
      assert observations[0..] == observations;
      for i := 0 to |observations|
        invariant outcome == Done
        invariant var whole, rest := Build(old(Contents()), queue.node, boot, observations),
        Build(Contents(), queue.node, boot, observations[i..]);
          whole.0 == rest.0 && whole.1 == rest.1 && (whole.1.Done? ==> whole.2 == entries + rest.2)
      {
        assert observations[i..][0] == observations[i] && observations[i..][1..] == observations[i + 1..];
        BuildStep(Contents(), queue.node, boot, observations[i..]);
        var number;
        outcome, number := queue.Next(observations[i].fault);
        if !outcome.Done? {
          return;
        }
        handed := handed + [number];
        var entry := Stored(observations[i].priority,
                            Event(observations[i].id, number, queue.node, boot, observations[i].payload));
        ghost var more := Build(Contents(), queue.node, boot, observations[i + 1..]).2;
        assert entries + ([entry] + more) == (entries + [entry]) + more;
        entries := entries + [entry];
      }
      BuildNothing(Contents(), queue.node, boot);
      assert observations[|observations|..] == [] && entries + [] == entries;
    }
  }

  lemma BuildStep(world: World, node: string, boot: string, observations: seq<Observation>)
    requires observations != []
    ensures var first := observations[0];
      var (queue, outcome) := NextSequence(world.queue, first.fault);
      var next := Perform(world, node, DoNext(first.fault));
      var whole, rest := Build(world, node, boot, observations), Build(next, node, boot, observations[1..]);
      && next.queue == queue && next.enqueued == world.enqueued && next.accepted == world.accepted
      && next.handed == (if outcome.Done? then world.handed + [queue.memory.last] else world.handed)
      && (!outcome.Done? ==> whole == (next, outcome, []))
      && (outcome.Done? ==>
            && whole.0 == rest.0 && whole.1 == rest.1
            && whole.2 == [Stored(first.priority, Event(first.id, queue.memory.last, node, boot, first.payload))]
                + rest.2)
  {
    hide NextSequence;
  }

  lemma BuildNothing(world: World, node: string, boot: string)
    ensures Build(world, node, boot, []) == (world, Done, [])
  {
  }

  lemma AcknowledgeShrinks(queue: Queue, sent: seq<Event>, fault: Fault)
    ensures var (next, outcome) := Acknowledge(queue, sent, fault);
      outcome.Done? ==> |next.memory.events| < |queue.memory.events|
  {
  }
}
