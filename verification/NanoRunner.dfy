/**
  Watchdog runners over a shared compare-and-swap cursor store (core/nano/runner.go).  A run is two
  steps, the load and the commit, and anything may happen between them.  Building the proposals
  and the deadline test are one answer of the environment, `proposable`.
*/
module NanoRunner {
  import opened Common
  import opened NanoTokens
  import opened NanoGrammar
  import opened NanoParser
  import opened NanoEvaluate

  const DEFAULT_LIMITS := Limits(65536, 4096, 16, 64, 16, 128, 1024, 8192, 128)

  /** `signal` is the normalized reason; an invalid finding is refused before anything is loaded. */
  datatype Finding = Finding(valid: bool, signal: string, confidence: real, observed: int)

  function FrameFor(finding: Finding): Frame {
    Frame([finding.observed],
          map[finding.signal := [Finite(1.0)], "CONFIDENCE" := [Finite(finding.confidence)]])
  }

  const NO_CURSOR := Cursor(false, 0)

  // ---------------------------------------------------------------- the store

  function StoreKey(digest: string, node: string): string {
    digest + "\0" + node
  }

  /** A program digest never contains the separator, so distinct pairs have distinct keys. */
  lemma {:induction false} StoreKeyInjective(digest: string, node: string, digest': string, node': string)
    requires '\0' !in digest && '\0' !in digest' && StoreKey(digest, node) == StoreKey(digest', node')
    ensures digest == digest' && node == node'
    decreases |digest|
  {
    var key, key' := StoreKey(digest, node), StoreKey(digest', node');
    if digest == [] || digest' == [] {
      assert key[0] == key'[0];
      assert key[1..] == node && key'[1..] == node';
    } else {
      assert key[1..] == StoreKey(digest[1..], node) && key'[1..] == StoreKey(digest'[1..], node');
      assert key[0] == key'[0];
      StoreKeyInjective(digest[1..], node, digest'[1..], node');
      assert digest == [digest[0]] + digest[1..] && digest' == [digest'[0]] + digest'[1..];
    }
  }

  function CursorAt(cursors: map<string, Cursor>, key: string): Cursor {
    if key in cursors then cursors[key] else NO_CURSOR
  }

  class MemoryCursorStore {
    var cursors: map<string, Cursor>

    constructor ()
      ensures cursors == map[]
    {
      cursors := map[];
    }

    method Load(digest: string, node: string) returns (cursor: Cursor)
      ensures cursor == CursorAt(cursors, StoreKey(digest, node))
    {
      cursor := if StoreKey(digest, node) in cursors then cursors[StoreKey(digest, node)] else NO_CURSOR;
    }

    method CompareAndSwap(digest: string, node: string, previous: Cursor, next: Cursor) returns (swapped: bool)
      modifies this
      ensures swapped <==> CursorAt(old(cursors), StoreKey(digest, node)) == previous
      ensures cursors == if swapped then old(cursors)[StoreKey(digest, node) := next] else old(cursors)
    {
      var key := StoreKey(digest, node);
      var current := if key in cursors then cursors[key] else NO_CURSOR;
      if current != previous {
        return false;
      }
      cursors := cursors[key := next];
      swapped := true;
    }
  }

  // ---------------------------------------------------------------- one run, step by step

  /** What a run that loaded `cursor` would store, if it gets that far. */
  function NextCursor(program: Program, finding: Finding, cursor: Cursor): Option<Cursor>
    requires Shaped(FrameFor(finding))
  {
    if Succeeds(program, FrameFor(finding), cursor, DEFAULT_LIMITS)
    then Some(MeaningFrom(program, FrameFor(finding), 0, cursor).cursor) else None
  }

  datatype Pending = Pending(finding: Finding, cursor: Cursor)

  /** Every fire is the observation time of a successful run that found its point due. */
  datatype World = World(cursors: map<string, Cursor>, pending: map<nat, Pending>, fires: seq<int>)

  datatype Action =
    | Start(runner: nat, finding: Finding)
    | Finish(runner: nat, proposable: bool, fault: Fault)
    | Foreign(digest: string, node: string, cursor: Cursor)

  predicate Sensible(finding: Finding) {
    finding.valid && !BlankName(finding.signal) && finding.signal != "CONFIDENCE" && IsInt64(finding.observed)
  }

  /** Runners of one compiled program on one node, and any traffic under other keys. */
  function Act(world: World, program: Program, digest: string, node: string, action: Action): World
    requires forall id | id in world.pending :: Sensible(world.pending[id].finding)
  {
    match action
    case Start(id, finding) =>
      if !Sensible(finding) then world
      else world.(pending := world.pending[id := Pending(finding, CursorAt(world.cursors, StoreKey(digest, node)))])
    case Finish(id, proposable, fault) =>
      if id !in world.pending then world
      else
        SensibleShaped(world.pending[id].finding);
        Commit(world.(pending := world.pending - {id}), world.pending[id], program, StoreKey(digest, node), proposable,
               fault)
    case Foreign(digest', node', cursor) =>
      if '\0' in digest' || (digest' == digest && node' == node) then world
      else world.(cursors := world.cursors[StoreKey(digest', node') := cursor])
  }

  lemma SensibleShaped(finding: Finding)
    requires Sensible(finding)
    ensures Shaped(FrameFor(finding))
  {
    assert !BlankName("CONFIDENCE") by { assert "CONFIDENCE"[0] == 'C'; }
  }

  /** Evaluate, then swap: a run succeeds only if the cursor is still the one it loaded and the store says so. */
  function Commit(world: World, run: Pending, program: Program, key: string, proposable: bool, fault: Fault): World
    requires Shaped(FrameFor(run.finding))
  {
    var next := NextCursor(program, run.finding, run.cursor);
    if next.None? || !proposable || !Lands(fault) || CursorAt(world.cursors, key) != run.cursor then world
    else
      var swapped := world.(cursors := world.cursors[key := next.value]);
      if fault.Healthy? && Due(run.cursor, run.finding.observed)
      then swapped.(fires := world.fires + [run.finding.observed]) else swapped
  }

  // ---------------------------------------------------------------- spacing

  ghost predicate Spaced(fires: seq<int>, interval: int) {
    forall i, j | 0 <= i < j < |fires| :: fires[i] + interval <= fires[j]
  }

  /** The stored cursor is never behind the fires it has allowed, and fits 64 bits. */
  ghost predicate Paced(world: World, key: string, interval: int) {
    var cursor := CursorAt(world.cursors, key);
    && (forall id | id in world.pending :: Sensible(world.pending[id].finding))
    && IsInt64(cursor.nextDue)
    && Spaced(world.fires, interval)
    && (world.fires != [] ==> cursor.initialized)
    && (forall i | 0 <= i < |world.fires| :: world.fires[i] + interval <= cursor.nextDue)
  }

  lemma NextMeaning(program: Program, finding: Finding, cursor: Cursor)
    requires Sensible(finding) && Compiled(program) && Shaped(FrameFor(finding))
    ensures var next := NextCursor(program, finding, cursor);
      next.Some? ==>
        && next.value == (if Due(cursor, finding.observed) then Cursor(true, finding.observed + Interval(program))
                          else cursor)
        && (Due(cursor, finding.observed) ==> finding.observed + Interval(program) <= MAX_INT64)
  {
    hide CheckAll, AllHold, FireAll;
    var frame := FrameFor(finding);
    assert |frame.timestamps| == 1 && frame.timestamps[0] == finding.observed;
    var later := Cursor(true, finding.observed + Interval(program));
    assert MeaningFrom(program, frame, 1, cursor).cursor == cursor
        && MeaningFrom(program, frame, 1, later).cursor == later;
  }

  lemma CommitKeepsPace(world: World, run: Pending, program: Program, key: string, proposable: bool, fault: Fault)
    requires Compiled(program) && Sensible(run.finding) && Shaped(FrameFor(run.finding))
        && Paced(world, key, Interval(program))
    ensures Paced(Commit(world, run, program, key, proposable, fault), key, Interval(program))
  {
    hide Shaped, NextCursor;
    NextMeaning(program, run.finding, run.cursor);
    var after := Commit(world, run, program, key, proposable, fault);
    if after != world {
      assert CursorAt(after.cursors, key) == NextCursor(program, run.finding, run.cursor).value;
    }
  }

  lemma ActKeepsPace(world: World, program: Program, digest: string, node: string, action: Action)
    requires Compiled(program) && '\0' !in digest && Paced(world, StoreKey(digest, node), Interval(program))
    ensures Paced(Act(world, program, digest, node, action), StoreKey(digest, node), Interval(program))
  {
    hide Shaped, NextCursor;
    match action
    case Start(_, _) =>
    case Finish(id, proposable, fault) =>
      if id in world.pending {
        SensibleShaped(world.pending[id].finding);
        var trimmed := world.(pending := world.pending - {id});
        assert forall other | other in trimmed.pending ::
            other in world.pending && trimmed.pending[other] == world.pending[other];
        CommitKeepsPace(trimmed, world.pending[id], program, StoreKey(digest, node), proposable, fault);
      }
    case Foreign(digest', node', _) =>
      if '\0' !in digest' && StoreKey(digest', node') == StoreKey(digest, node) {
        StoreKeyInjective(digest, node, digest', node');
      }
      var after := Act(world, program, digest, node, action);
      assert CursorAt(after.cursors, StoreKey(digest, node)) == CursorAt(world.cursors, StoreKey(digest, node));
  }

  function Play(world: World, program: Program, digest: string, node: string, actions: seq<Action>): World
    requires forall id | id in world.pending :: Sensible(world.pending[id].finding)
    decreases |actions|
  {
    if actions == [] then world
    else Play(Act(world, program, digest, node, actions[0]), program, digest, node, actions[1..])
  }

  lemma {:induction false} PlayKeepsPace(world: World, program: Program, digest: string, node: string,
                                         actions: seq<Action>)
    requires Compiled(program) && '\0' !in digest && Paced(world, StoreKey(digest, node), Interval(program))
    ensures Paced(Play(world, program, digest, node, actions), StoreKey(digest, node), Interval(program))
    decreases |actions|
  {
    hide Act, StoreKey;
    if actions != [] {
      ActKeepsPace(world, program, digest, node, actions[0]);
      PlayKeepsPace(Act(world, program, digest, node, actions[0]), program, digest, node, actions[1..]);
    }
  }

  /**
    Over every interleaving of any number of runners of one compiled program and node, with
    findings in any time order and commits lost, torn or refused, the fires are at least the
    compiled interval apart and strictly increasing in commit order, and no due time overflows.
  */
  lemma FiresAreSpaced(program: Program, digest: string, node: string, actions: seq<Action>)
    requires Compiled(program) && '\0' !in digest
    ensures var end := Play(World(map[], map[], []), program, digest, node, actions);
      && Spaced(end.fires, Interval(program)) && (forall i, j | 0 <= i < j < |end.fires| :: end.fires[i] < end.fires[j])
      && IsInt64(CursorAt(end.cursors, StoreKey(digest, node)).nextDue)
  {
    hide Play;
    PlayKeepsPace(World(map[], map[], []), program, digest, node, actions);
  }

  // ---------------------------------------------------------------- the runner object

  datatype RunError = NodeMismatch | BadFinding | NotEvaluated(error: EvaluateError) | TooOld | ChangedConcurrently

  /** One runner's load, evaluation and swap with nobody in between. */
  function RunAlone(cursors: map<string, Cursor>, program: Program, digest: string, node: string, finding: Finding,
                    proposable: bool): World {
    var started := Act(World(cursors, map[], []), program, digest, node, Start(0, finding));
    Act(started, program, digest, node, Finish(0, proposable, Healthy))
  }

  /** The steps of the spacing result, spelled out for a run that is not interrupted. */
  lemma RunAloneMeaning(cursors: map<string, Cursor>, program: Program, digest: string, node: string, finding: Finding,
                        proposable: bool)
    requires Sensible(finding) && Shaped(FrameFor(finding))
    ensures var cursor, end := CursorAt(cursors, StoreKey(digest, node)),
    RunAlone(cursors, program, digest, node, finding, proposable);
      var next := NextCursor(program, finding, cursor);
      && end.cursors == (if proposable && next.Some? then cursors[StoreKey(digest, node) := next.value] else cursors)
      && end.fires == (if proposable && next.Some? && Due(cursor, finding.observed) then [finding.observed] else [])
  {
    hide NextCursor, StoreKey;
  }

  lemma RefusedAlone(cursors: map<string, Cursor>, program: Program, digest: string, node: string, finding: Finding,
                     proposable: bool)
    requires !Sensible(finding)
    ensures RunAlone(cursors, program, digest, node, finding, proposable) == World(cursors, map[], [])
  {
  }

  lemma SilentUnlessDue(program: Program, finding: Finding, cursor: Cursor)
    requires Shaped(FrameFor(finding)) && !Due(cursor, finding.observed)
    ensures MeaningFrom(program, FrameFor(finding), 0, cursor).tally.intents == []
  {
    var frame := FrameFor(finding);
    assert |frame.timestamps| == 1 && frame.timestamps[0] == finding.observed;
    assert MeaningFrom(program, frame, 1, cursor).tally == NOTHING;
  }

  class Runner {
    const program: Program
    const digest: string
    const node: string
    const store: MemoryCursorStore

    constructor (program: Program, digest: string, node: string, store: MemoryCursorStore)
      ensures this.program == program && this.digest == digest && this.node == node && this.store == store
    {
      this.program, this.digest, this.node, this.store := program, digest, node, store;
    }

    /** The cursor is saved before anything is returned: a run that fails leaves the store as it was. */
    method RunFinding(nodeId: string, finding: Finding, proposable: bool) returns (reply: Result<Evaluation, RunError>)
      requires Compiled(program) && IsInt64(CursorAt(store.cursors, StoreKey(digest, node)).nextDue)
      modifies store
      ensures reply.Err? ==> store.cursors == old(store.cursors)
      ensures reply.Ok? <==>
                && nodeId == node && Sensible(finding) && proposable
                && Succeeds(program, FrameFor(finding), CursorAt(old(store.cursors), StoreKey(digest, node)),
                            DEFAULT_LIMITS)
      ensures Sensible(finding) ==> Shaped(FrameFor(finding))
      ensures reply.Ok? ==>
                var cursor := CursorAt(old(store.cursors), StoreKey(digest, node));
                var meaning := MeaningFrom(program, FrameFor(finding), 0, cursor);
                && reply.value.intents == meaning.tally.intents
                && store.cursors == old(store.cursors)[StoreKey(digest, node) := meaning.cursor]
      ensures store.cursors ==
                if nodeId == node then RunAlone(old(store.cursors), program, digest, node, finding, proposable).cursors
                else old(store.cursors)
      ensures reply.Ok? && reply.value.intents != [] ==>
                RunAlone(old(store.cursors), program, digest, node, finding, proposable).fires == [finding.observed]
    {
      hide MeaningFrom, Affordable, RunAlone, StoreKey;
      if Sensible(finding) {
        SensibleShaped(finding);
        RunAloneMeaning(store.cursors, program, digest, node, finding, proposable);
      }
      if nodeId != node {
        return Err(NodeMismatch);
      }
      if !Sensible(finding) {
        RefusedAlone(store.cursors, program, digest, node, finding, proposable);
        return Err(BadFinding);
      }
      var frame := FrameFor(finding);
      var cursor := store.Load(digest, node);
      var evaluation, next := Evaluate(program, frame, cursor, DEFAULT_LIMITS);
      if evaluation.Err? {
        return Err(NotEvaluated(evaluation.error));
      }
      if !proposable {
        return Err(TooOld);
      }
      var advanced := store.CompareAndSwap(digest, node, cursor, next);
      if !advanced {
        return Err(ChangedConcurrently);
      }
      if !Due(cursor, finding.observed) {
        SilentUnlessDue(program, finding, cursor);
      }
      reply := Ok(evaluation.value);
    }
  }
}
