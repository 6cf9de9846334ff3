/**
  The durable telemetry queue and its drain loop (agent/runtime/queue.go, agent/runtime/loop.go).
  The queue file is replaced as a whole; one Fault per save says whether the replacement was
  installed, whether an error was reported, and whether the process survived.  A queued envelope is
  its decoded event, so the protobuf and base64 round trip is taken for granted.

  World keeps, besides the queue, what was handed out, enqueued and accepted; no operation reads it.
*/
module QueueModel {
  import opened Common

  const MAXIMUM_EVENTS: nat := 10000
  const MAX_UINT64: nat := 0xffff_ffff_ffff_ffff
  const DRAIN_BATCH: nat := 256

  datatype Event = Event(id: string, sequence: nat, node: string, boot: string, payload: string)
  datatype Stored = Stored(priority: nat, event: Event)
  datatype State = State(last: nat, events: seq<Stored>)

  datatype Queue = Queue(memory: State, file: State)

  datatype Problem = Unavailable | Exhausted | Invalid | Full | Unmatched | NotSubmitted

  datatype Outcome = Done | Refused(problem: Problem) | Died

  function Verdict(fault: Fault): Outcome {
    if Kills(fault) then Died else if fault.Healthy? then Done else Refused(Unavailable)
  }

  /** A save of `next`; when nothing was installed and the process lives, memory falls back to `otherwise`. */
  function Save(queue: Queue, next: State, otherwise: State, fault: Fault): Queue {
    var file := if Lands(fault) then next else queue.file;
    Queue(if Verdict(fault).Died? then file else if Lands(fault) then next else otherwise, file)
  }

  // ---------------------------------------------------------------- operations

  /** An increment that was not saved stays in memory: the number is skipped, never handed out. */
  function NextSequence(queue: Queue, fault: Fault): (Queue, Outcome) {
    if queue.memory.last == MAX_UINT64 then (queue, Refused(Exhausted))
    else
      var next := queue.memory.(last := queue.memory.last + 1);
      (Save(queue, next, next, fault), Verdict(fault))
  }

  predicate Enqueuable(event: Event, node: string) {
    event.id != "" && event.sequence != 0 && event.node == node
  }

  function Enqueue(queue: Queue, node: string, entries: seq<Stored>, fault: Fault): (Queue, Outcome) {
    if entries == [] || (exists i :: 0 <= i < |entries| && !Enqueuable(entries[i].event, node))
        then (queue, Refused(Invalid))
    else if |entries| + |queue.memory.events| > MAXIMUM_EVENTS then (queue, Refused(Full))
    else
      var next := queue.memory.(events := queue.memory.events + entries);
      (Save(queue, next, queue.memory, fault), Verdict(fault))
  }

  predicate Deliverable(event: Event, node: string) {
    Enqueuable(event, node) && event.boot != ""
  }

  /** The first `maximum` events of the boot that comes first, in queue order; stops at an event it cannot deliver. */
  function Select(events: seq<Stored>, node: string, boot: string, maximum: nat): Result<seq<Event>, Problem>
    decreases |events|
  {
    if events == [] || maximum == 0 then Ok([])
    else if !Deliverable(events[0].event, node) then Err(Invalid)
    else
      var event := events[0].event;
      if boot != "" && event.boot != boot then Select(events[1..], node, boot, maximum)
      else
        match Select(events[1..], node, event.boot, maximum - 1)
        case Err(problem) => Err(problem)
        case Ok(more) => Ok([event] + more)
  }

  predicate SortedBySequence(events: seq<Event>) {
    forall i, j | 0 <= i < j < |events| :: events[i].sequence <= events[j].sequence
  }

  function Insert(event: Event, sorted: seq<Event>): seq<Event> {
    if sorted == [] || event.sequence <= sorted[0].sequence then [event] + sorted
    else [sorted[0]] + Insert(event, sorted[1..])
  }

  function Sort(events: seq<Event>): seq<Event> {
    if events == [] then [] else Insert(events[0], Sort(events[1..]))
  }

  function Batch(state: State, node: string, maximum: nat): Result<seq<Event>, Problem> {
    if maximum < 1 || maximum > 256 then Err(Invalid)
    else
      match Select(state.events, node, "", maximum)
      case Err(problem) => Err(problem)
      case Ok(events) => Ok(Sort(events))
  }

  function Ids(events: seq<Event>): set<string> {
    set i | 0 <= i < |events| :: events[i].id
  }

  function Keep(events: seq<Stored>, ids: set<string>): (kept: seq<Stored>)
    ensures |kept| <= |events|
  {
    if events == [] then []
    else (if events[0].event.id in ids then [] else [events[0]]) + Keep(events[1..], ids)
  }

  function Acknowledge(queue: Queue, sent: seq<Event>, fault: Fault): (Queue, Outcome) {
    if sent == [] || "" in Ids(sent) then (queue, Refused(Invalid))
    else
      var kept := Keep(queue.memory.events, Ids(sent));
      if |kept| == |queue.memory.events| then (queue, Refused(Unmatched))
      else (Save(queue, queue.memory.(events := kept), queue.memory, fault), Verdict(fault))
  }

  // ---------------------------------------------------------------- the drain loop

  datatype Submission = Accepted | Rejected | Crashed

  datatype Round = Round(submission: Submission, fault: Fault)

  datatype World = World(queue: Queue, handed: seq<nat>, enqueued: set<Event>, accepted: set<Event>)

  function Reload(queue: Queue): Queue {
    Queue(queue.file, queue.file)
  }

  /** Batch, submit, acknowledge, until the queue is empty or something fails; no round left means the process died. */
  function Drain(world: World, node: string, rounds: seq<Round>): (World, Outcome)
    decreases |rounds|
  {
    match Batch(world.queue.memory, node, DRAIN_BATCH)
    case Err(problem) => (world, Refused(problem))
    case Ok(events) =>
      if events == [] then (world, Done)
      else if rounds == [] || rounds[0].submission.Crashed? then (world.(queue := Reload(world.queue)), Died)
      else if rounds[0].submission.Rejected? then (world, Refused(NotSubmitted))
      else
        var (queue, outcome) := Acknowledge(world.queue, events, rounds[0].fault);
        var next := world.(queue := queue, accepted := world.accepted + Set(events));
        if outcome.Done? then Drain(next, node, rounds[1..]) else (next, outcome)
  }

  function Set(events: seq<Event>): set<Event> {
    set i | 0 <= i < |events| :: events[i]
  }

  datatype Action =
    | DoNext(fault: Fault)
    | DoEnqueue(entries: seq<Stored>, fault: Fault)
    | DoDrain(rounds: seq<Round>)
    | DoRestart

  function Perform(world: World, node: string, action: Action): World {
    match action
    case DoNext(fault) =>
      var (queue, outcome) := NextSequence(world.queue, fault);
      world.(queue := queue, handed := if outcome.Done? then world.handed + [queue.memory.last] else world.handed)
    case DoEnqueue(entries, fault) =>
      var (queue, outcome) := Enqueue(world.queue, node, entries, fault);
      world.(queue := queue, enqueued := if outcome.Done? then world.enqueued + Set(Events(entries))
             else world.enqueued)
    case DoDrain(rounds) => Drain(world, node, rounds).0
    case DoRestart => world.(queue := Reload(world.queue))
  }

  function Events(stored: seq<Stored>): (events: seq<Event>)
    ensures |events| == |stored|
  {
    seq(|stored|, i requires 0 <= i < |stored| => stored[i].event)
  }

  // ---------------------------------------------------------------- what a batch is

  lemma {:induction false} SelectMeaning(events: seq<Stored>, node: string, boot: string, maximum: nat)
    ensures var read := Select(events, node, boot, maximum);
      read.Ok? ==>
        && |read.value| <= maximum
        && (forall i | 0 <= i < |read.value| :: read.value[i] in Events(events) && Deliverable(read.value[i], node))
        && (forall i, j | 0 <= i < |read.value| && 0 <= j < |read.value| :: read.value[i].boot == read.value[j].boot)
        && (boot != "" ==> forall i | 0 <= i < |read.value| :: read.value[i].boot == boot)
        && (boot == "" && events != [] && maximum > 0 ==> read.value != [] && read.value[0] == events[0].event)
    decreases |events|
  {
    if events != [] && maximum > 0 && Deliverable(events[0].event, node) {
      var event := events[0].event;
      assert forall i | 0 <= i < |events[1..]| :: Events(events[1..])[i] == Events(events)[i + 1];
      assert Events(events)[0] == event;
      if boot != "" && event.boot != boot {
        SelectMeaning(events[1..], node, boot, maximum);
      } else {
        SelectMeaning(events[1..], node, event.boot, maximum - 1);
      }
    }
  }

  lemma SortedCons(first: Event, rest: seq<Event>)
    requires SortedBySequence(rest) && forall i | 0 <= i < |rest| :: first.sequence <= rest[i].sequence
    ensures SortedBySequence([first] + rest)
  {
    var all := [first] + rest;
    forall i, j | 0 <= i < j < |all|
      ensures all[i].sequence <= all[j].sequence
    {
      assert all[j] == rest[j - 1] && (i > 0 ==> all[i] == rest[i - 1]);
    }
  }

  lemma {:induction false} InsertMeaning(event: Event, sorted: seq<Event>)
    requires SortedBySequence(sorted)
    ensures SortedBySequence(Insert(event, sorted))
        && multiset(Insert(event, sorted)) == multiset(sorted) + multiset{event}
    decreases |sorted|
  {
    if sorted == [] || event.sequence <= sorted[0].sequence {
      SortedCons(event, sorted);
    } else {
      InsertMeaning(event, sorted[1..]);
      var tail := Insert(event, sorted[1..]);
      assert sorted == [sorted[0]] + sorted[1..];
      forall i | 0 <= i < |tail|
        ensures sorted[0].sequence <= tail[i].sequence
      {
        assert tail[i] in multiset(tail);
        assert tail[i] == event || tail[i] in sorted[1..];
      }
      SortedCons(sorted[0], tail);
    }
  }

  lemma {:induction false} SortMeaning(events: seq<Event>)
    ensures SortedBySequence(Sort(events)) && multiset(Sort(events)) == multiset(events) && |Sort(events)| == |events|
    decreases |events|
  {
    if events != [] {
      SortMeaning(events[1..]);
      InsertMeaning(events[0], Sort(events[1..]));
      assert events == [events[0]] + events[1..];
      assert |multiset(Sort(events))| == |Sort(events)| && |multiset(events)| == |events|;
    }
  }

  /** A batch is sorted, of one boot, deliverable, taken from the queue, and empty only if the queue is. */
  lemma BatchMeaning(state: State, node: string, maximum: nat)
    ensures var batch := Batch(state, node, maximum);
      batch.Ok? ==>
        && SortedBySequence(batch.value) && |batch.value| <= maximum
        && (forall i, j | 0 <= i < |batch.value| && 0 <= j < |batch.value| ::
            batch.value[i].boot == batch.value[j].boot)
        && (forall i | 0 <= i < |batch.value| ::
            batch.value[i] in Events(state.events) && Deliverable(batch.value[i], node))
        && (batch.value == [] <==> state.events == [])
  {
    hide Select, Sort, Deliverable;
    if Batch(state, node, maximum).Ok? {
      var selected := Select(state.events, node, "", maximum).value;
      SelectMeaning(state.events, node, "", maximum);
      SortMeaning(selected);
      var batch := Sort(selected);
      forall i | 0 <= i < |batch|
        ensures batch[i] in selected
      {
        assert batch[i] in multiset(batch);
      }
    }
  }

  /** The queued events of one boot, in queue order. */
  function OfBoot(events: seq<Stored>, boot: string): seq<Event> {
    if events == [] then []
    else (if events[0].event.boot == boot then [events[0].event] else []) + OfBoot(events[1..], boot)
  }

  function Taken(events: seq<Event>, maximum: nat): seq<Event> {
    if |events| <= maximum then events else events[..maximum]
  }

  /** The scan looks at the k-th event: fewer than `maximum` events of the boot come before it. */
  predicate Reached(events: seq<Stored>, boot: string, maximum: nat, k: nat)
    requires k < |events|
  {
    |OfBoot(events[..k], boot)| < maximum
  }

  ghost predicate Scannable(events: seq<Stored>, node: string, boot: string, maximum: nat) {
    forall k: nat | k < |events| && Reached(events, boot, maximum, k) :: Deliverable(events[k].event, node)
  }

  lemma ScannableCons(events: seq<Stored>, node: string, boot: string, maximum: nat)
    requires events != [] && maximum > 0
    ensures Scannable(events, node, boot, maximum) <==>
              && Deliverable(events[0].event, node)
              && Scannable(events[1..], node, boot, if events[0].event.boot == boot then maximum - 1 else maximum)
  {
    hide Deliverable;
    var rest, less := events[1..], if events[0].event.boot == boot then maximum - 1 else maximum;
    assert Reached(events, boot, maximum, 0);
    forall k: nat | k < |rest|
      ensures Reached(rest, boot, less, k) <==> Reached(events, boot, maximum, k + 1)
    {
      assert events[..k + 1][1..] == rest[..k];
    }
    if Scannable(events, node, boot, maximum) {
      forall k: nat | k < |rest| && Reached(rest, boot, less, k)
        ensures Deliverable(rest[k].event, node)
      {
        assert rest[k] == events[k + 1] && Reached(events, boot, maximum, k + 1);
      }
    }
    if Deliverable(events[0].event, node) && Scannable(rest, node, boot, less) {
      forall k: nat | k < |events| && Reached(events, boot, maximum, k)
        ensures Deliverable(events[k].event, node)
      {
        if k > 0 {
          assert rest[k - 1] == events[k] && Reached(rest, boot, less, k - 1);
        }
      }
    }
  }

  lemma {:induction false} SelectExact(events: seq<Stored>, node: string, boot: string, maximum: nat)
    requires boot != ""
    ensures Select(events, node, boot, maximum) ==
              if Scannable(events, node, boot, maximum) then Ok(Taken(OfBoot(events, boot), maximum)) else Err(Invalid)
    decreases |events|
  {
    hide Scannable, Deliverable;
    if events == [] || maximum == 0 {
      ScannableNothing(events, node, boot, maximum);
    } else {
      ScannableCons(events, node, boot, maximum);
      SelectExact(events[1..], node, boot, if events[0].event.boot == boot then maximum - 1 else maximum);
      TakenCons(events[0].event, OfBoot(events[1..], boot), maximum);
      assert [] + OfBoot(events[1..], boot) == OfBoot(events[1..], boot);
    }
  }

  lemma TakenCons(event: Event, events: seq<Event>, maximum: nat)
    requires maximum > 0
    ensures Taken([event] + events, maximum) == [event] + Taken(events, maximum - 1)
  {
  }

  lemma ScannableNothing(events: seq<Stored>, node: string, boot: string, maximum: nat)
    requires events == [] || maximum == 0
    ensures Scannable(events, node, boot, maximum)
  {
  }

  /**
    The exact batch: refused if and only if the scan meets an event it cannot deliver, and otherwise the
    first `maximum` events of the first boot in the queue, each as often as it is queued.
  */
  lemma BatchExact(state: State, node: string, maximum: nat)
    requires 1 <= maximum <= 256 && state.events != []
    ensures var boot := state.events[0].event.boot;
      var batch := Batch(state, node, maximum);
      && (batch.Ok? <==> Scannable(state.events, node, boot, maximum))
      && (batch.Ok? ==> multiset(batch.value) == multiset(Taken(OfBoot(state.events, boot), maximum)))
  {
    hide Scannable, Sort, OfBoot, Taken;
    var first := state.events[0].event;
    ScannableCons(state.events, node, first.boot, maximum);
    if first.boot != "" {
      SelectExact(state.events, node, first.boot, maximum);
      SortMeaning(Taken(OfBoot(state.events, first.boot), maximum));
    }
  }

  lemma {:induction false} DeliverableSelects(events: seq<Stored>, node: string, boot: string, maximum: nat)
    requires forall i | 0 <= i < |events| :: Deliverable(events[i].event, node)
    ensures Select(events, node, boot, maximum).Ok?
    decreases |events|
  {
    if events != [] && maximum > 0 {
      DeliverableSelects(events[1..], node, boot, maximum);
      DeliverableSelects(events[1..], node, events[0].event.boot, maximum - 1);
    }
  }

  // ---------------------------------------------------------------- what an acknowledgement removes

  lemma {:induction false} KeepMeaning(events: seq<Stored>, ids: set<string>)
    ensures forall event :: event in Events(Keep(events, ids)) <==> event in Events(events) && event.id !in ids
    ensures |Keep(events, ids)| == |events| <==> forall event | event in Events(events) :: event.id !in ids
    ensures DistinctIds(events) ==> DistinctIds(Keep(events, ids))
    decreases |events|
  {
    if events != [] {
      var rest := events[1..];
      KeepMeaning(rest, ids);
      EventsCons(events[0], rest);
      assert events == [events[0]] + rest;
      var kept := Keep(rest, ids);
      EventsCons(events[0], kept);
      if DistinctIds(events) {
        DistinctTail(events);
        if events[0].event.id !in ids {
          forall event | event in Events(kept)
            ensures event.id != events[0].event.id
          {
            assert event in Events(rest);
          }
          DistinctCons(events[0], kept);
        } else {
          assert [] + kept == kept;
        }
      }
      if events[0].event.id in ids {
        assert Keep(events, ids) == kept by { assert [] + kept == kept; }
        assert events[0].event in Events(events);
      }
    }
  }

  predicate DistinctIds(events: seq<Stored>) {
    forall i, j | 0 <= i < j < |events| :: events[i].event.id != events[j].event.id
  }

  lemma EventsCons(first: Stored, rest: seq<Stored>)
    ensures Events([first] + rest) == [first.event] + Events(rest)
  {
  }

  lemma DistinctTail(events: seq<Stored>)
    requires events != [] && DistinctIds(events)
    ensures DistinctIds(events[1..]) && forall event | event in Events(events[1..]) :: event.id != events[0].event.id
  {
    forall i, j | 0 <= i < j < |events[1..]|
      ensures events[1..][i].event.id != events[1..][j].event.id
    {
      assert events[i + 1].event.id != events[j + 1].event.id;
    }
    forall event | event in Events(events[1..])
      ensures event.id != events[0].event.id
    {
      var i :| 0 <= i < |Events(events[1..])| && Events(events[1..])[i] == event;
      assert event == events[i + 1].event;
    }
  }

  lemma DistinctCons(first: Stored, rest: seq<Stored>)
    requires DistinctIds(rest) && forall event | event in Events(rest) :: event.id != first.event.id
    ensures DistinctIds([first] + rest)
  {
    var all := [first] + rest;
    forall i, j | 0 <= i < j < |all|
      ensures all[i].event.id != all[j].event.id
    {
      assert all[j] == rest[j - 1] && Events(rest)[j - 1] == rest[j - 1].event;
      assert i > 0 ==> all[i] == rest[i - 1];
    }
  }

  lemma OneEventPerId(events: seq<Stored>, a: Event, b: Event)
    requires DistinctIds(events) && a in Events(events) && b in Events(events) && a.id == b.id
    ensures a == b
  {
    var i :| 0 <= i < |events| && Events(events)[i] == a;
    var j :| 0 <= j < |events| && Events(events)[j] == b;
    assert i == j;
  }

  // ---------------------------------------------------------------- every run

  predicate Increasing(numbers: seq<nat>) {
    forall i, j | 0 <= i < j < |numbers| :: numbers[i] < numbers[j]
  }

  /** Memory and file hold the same events, numbers only grow, and nothing enqueued is lost before it is accepted. */
  ghost predicate Good(world: World) {
    var memory, file := world.queue.memory, world.queue.file;
    && memory.events == file.events && |memory.events| <= MAXIMUM_EVENTS && DistinctIds(memory.events)
    && file.last <= memory.last <= MAX_UINT64
    && Increasing(world.handed) && (forall i | 0 <= i < |world.handed| :: world.handed[i] <= file.last)
    && Retained(world.enqueued, memory.events, world.accepted)
  }

  predicate Retained(enqueued: set<Event>, events: seq<Stored>, accepted: set<Event>) {
    forall event | event in enqueued :: event in Events(events) || event in accepted
  }

  lemma NextKeeps(world: World, node: string, fault: Fault)
    requires Good(world)
    ensures Good(Perform(world, node, DoNext(fault)))
  {
    hide DistinctIds, Retained;
  }

  /** The new ids are distinct from each other and from those still queued. */
  predicate Fresh(world: World, entries: seq<Stored>) {
    DistinctIds(world.queue.memory.events + entries)
  }

  lemma EnqueueKeeps(world: World, node: string, entries: seq<Stored>, fault: Fault)
    requires Good(world) && Fresh(world, entries)
    ensures Good(Perform(world, node, DoEnqueue(entries, fault)))
  {
    hide DistinctIds, Increasing;
    var events := world.queue.memory.events;
    assert forall i | 0 <= i < |events| :: Events(events + entries)[i] == Events(events)[i];
    assert forall i | 0 <= i < |entries| :: Events(events + entries)[|events| + i] == Events(entries)[i];
  }

  /** An acknowledged batch leaves the queue and nothing else does, because ids are distinct. */
  lemma AcknowledgeKeeps(world: World, sent: seq<Event>, fault: Fault)
    requires Good(world) && forall i | 0 <= i < |sent| :: sent[i] in Events(world.queue.memory.events)
    ensures var (queue, outcome) := Acknowledge(world.queue, sent, fault);
      && Good(world.(queue := queue, accepted := world.accepted + Set(sent)))
      && (outcome.Done? ==> |queue.memory.events| < |world.queue.memory.events|)
  {
    hide Keep, DistinctIds, Increasing;
    var events := world.queue.memory.events;
    var kept := Keep(events, Ids(sent));
    KeepMeaning(events, Ids(sent));
    assert Retained(world.enqueued, kept, world.accepted + Set(sent)) by {
      forall event | event in world.enqueued
        ensures event in Events(kept) || event in world.accepted + Set(sent)
      {
        if event in Events(events) && event.id in Ids(sent) {
          var i :| 0 <= i < |sent| && sent[i].id == event.id;
          OneEventPerId(events, event, sent[i]);
        }
      }
    }
  }

  lemma {:induction false} DrainKeeps(world: World, node: string, rounds: seq<Round>)
    requires Good(world)
    ensures Good(Drain(world, node, rounds).0)
    decreases |rounds|
  {
    hide Good, Batch, Acknowledge;
    ReloadKeeps(world);
    BatchMeaning(world.queue.memory, node, DRAIN_BATCH);
    var batch := Batch(world.queue.memory, node, DRAIN_BATCH);
    if batch.Ok? && batch.value != [] && rounds != [] && rounds[0].submission.Accepted? {
      AcknowledgeKeeps(world, batch.value, rounds[0].fault);
      var (queue, outcome) := Acknowledge(world.queue, batch.value, rounds[0].fault);
      if outcome.Done? {
        DrainKeeps(world.(queue := queue, accepted := world.accepted + Set(batch.value)), node, rounds[1..]);
      }
    }
  }

  lemma ReloadKeeps(world: World)
    requires Good(world)
    ensures Good(world.(queue := Reload(world.queue)))
  {
    hide DistinctIds, Increasing, Retained;
  }

  lemma PerformKeeps(world: World, node: string, action: Action)
    requires Good(world) && (action.DoEnqueue? ==> Fresh(world, action.entries))
    ensures Good(Perform(world, node, action))
  {
    hide Good, Fresh, NextSequence, Enqueue, Drain;
    match action
    case DoNext(fault) => NextKeeps(world, node, fault);
    case DoEnqueue(entries, fault) => EnqueueKeeps(world, node, entries, fault);
    case DoDrain(rounds) => DrainKeeps(world, node, rounds);
    case DoRestart => ReloadKeeps(world);
  }

  function Play(world: World, node: string, actions: seq<Action>): World
    decreases |actions|
  {
    if actions == [] then world else Play(Perform(world, node, actions[0]), node, actions[1..])
  }

  /** Whatever is enqueued along the run bears ids that are not in the queue at that time. */
  predicate FreshRun(world: World, node: string, actions: seq<Action>)
    decreases |actions|
  {
    actions != [] ==>
      && (actions[0].DoEnqueue? ==> Fresh(world, actions[0].entries))
      && FreshRun(Perform(world, node, actions[0]), node, actions[1..])
  }

  const EMPTY := State(0, [])
  const FIRST_START := World(Queue(EMPTY, EMPTY), [], {}, {})

  lemma {:induction false} PlayKeeps(world: World, node: string, actions: seq<Action>)
    requires Good(world) && FreshRun(world, node, actions)
    ensures Good(Play(world, node, actions))
    decreases |actions|
  {
    hide Good, Fresh, Perform;
    if actions != [] {
      PerformKeeps(world, node, actions[0]);
      PlayKeeps(Perform(world, node, actions[0]), node, actions[1..]);
    }
  }

  /**
    Over every run of enqueues, drains, failed and torn saves, crashes and restarts with distinct
    ids: an event leaves the queue only after a submission containing it was accepted, memory and
    file hold the same events after every call, and handed-out numbers strictly increase.
  */
  lemma NothingIsLost(node: string, actions: seq<Action>, event: Event)
    requires FreshRun(FIRST_START, node, actions)
    ensures var end := Play(FIRST_START, node, actions);
      && (event in end.enqueued && event !in Events(end.queue.memory.events) ==> event in end.accepted)
      && end.queue.memory.events == end.queue.file.events && Increasing(end.handed)
  {
    hide Play, FreshRun, DistinctIds;
    assert Good(FIRST_START) by { EmptyIsGood(); }
    PlayKeeps(FIRST_START, node, actions);
  }

  lemma EmptyIsGood()
    ensures Good(FIRST_START)
  {
  }

  // ---------------------------------------------------------------- the drain ends

  /** With a submitter that accepts and saves that go through, as many rounds as events empty any deliverable queue. */
  lemma {:induction false} DrainEmpties(world: World, node: string, rounds: seq<Round>)
    requires Good(world) && |rounds| >= |world.queue.memory.events|
    requires forall i | 0 <= i < |world.queue.memory.events| :: Deliverable(world.queue.memory.events[i].event, node)
    requires forall i | 0 <= i < |rounds| :: rounds[i] == Round(Accepted, Healthy)
    ensures var (end, outcome) := Drain(world, node, rounds); outcome.Done? && end.queue.memory.events == []
    decreases |rounds|
  {
    hide Good, Acknowledge, Select, Sort, Deliverable;
    var events := world.queue.memory.events;
    DeliverableSelects(events, node, "", DRAIN_BATCH);
    BatchMeaning(world.queue.memory, node, DRAIN_BATCH);
    var batch := Batch(world.queue.memory, node, DRAIN_BATCH).value;
    if batch != [] {
      AcknowledgeKeeps(world, batch, Healthy);
      AcknowledgeSucceeds(world.queue, batch, node);
      var (queue, outcome) := Acknowledge(world.queue, batch, Healthy);
      DrainEmpties(world.(queue := queue, accepted := world.accepted + Set(batch)), node, rounds[1..]);
    }
  }

  lemma AcknowledgeSucceeds(queue: Queue, sent: seq<Event>, node: string)
    requires sent != [] && forall i | 0 <= i < |sent| ::
        sent[i] in Events(queue.memory.events) && Deliverable(sent[i], node)
    requires forall i | 0 <= i < |queue.memory.events| :: Deliverable(queue.memory.events[i].event, node)
    ensures var (next, outcome) := Acknowledge(queue, sent, Healthy);
      outcome.Done? && forall i | 0 <= i < |next.memory.events| :: Deliverable(next.memory.events[i].event, node)
  {
    hide Keep;
    var events := queue.memory.events;
    KeepMeaning(events, Ids(sent));
    assert sent[0] in Events(events) && sent[0].id in Ids(sent);
    var kept := Keep(events, Ids(sent));
    forall i | 0 <= i < |kept|
      ensures Deliverable(kept[i].event, node)
    {
      assert Events(kept)[i] in Events(events);
      var k :| 0 <= k < |events| && Events(events)[k] == kept[i].event;
    }
  }
}
