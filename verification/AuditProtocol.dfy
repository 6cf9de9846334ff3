/**
  What the audit protocol keeps over every run, and what a successful verification proves about a
  database it has never seen (core/audit/service.go:119-314, 361-450).
*/
module AuditProtocol {
  import opened Common
  import opened AuditChain

  // ---------------------------------------------------------------- chains

  /** Entry i continues the chain of the entries before it. */
  predicate Continues(entries: seq<Entry>, i: nat)
    requires i < |entries|
  {
    Genuine(entries[i], HeadOf(entries[..i]).hash) && HeadOf(entries[..i]).sequence < entries[i].sequence
  }

  predicate Chained(entries: seq<Entry>) {
    forall i | 0 <= i < |entries| :: Continues(entries, i)
  }

  predicate Known(entries: seq<Entry>, keyring: set<string>) {
    forall i | 0 <= i < |entries| :: entries[i].body.keyId in keyring
  }

  lemma ContinuesPrefix(entries: seq<Entry>, n: nat, i: nat)
    requires i < n <= |entries|
    ensures Continues(entries[..n], i) <==> Continues(entries, i)
  {
    assert entries[..n][..i] == entries[..i];
  }

  lemma ChainedSnoc(entries: seq<Entry>, entry: Entry)
    ensures Chained(entries + [entry]) <==>
              Chained(entries) && Genuine(entry, HeadOf(entries).hash) && HeadOf(entries).sequence < entry.sequence
  {
    var longer := entries + [entry];
    assert longer[..|entries|] == entries;
    forall i: nat | i < |entries|
      ensures Continues(longer, i) <==> Continues(entries, i)
    {
      ContinuesPrefix(longer, |entries|, i);
    }
    assert Continues(longer, |entries|) <==>
        Genuine(entry, HeadOf(entries).hash) && HeadOf(entries).sequence < entry.sequence;
  }

  lemma {:induction false} SequencesArePositive(entries: seq<Entry>, n: nat)
    requires Chained(entries) && n <= |entries|
    ensures HeadOf(entries[..n]).sequence >= n
  {
    if n > 0 {
      SequencesArePositive(entries, n - 1);
      assert Continues(entries, n - 1);
    }
  }

  // ---------------------------------------------------------------- the meaning of the verification loop

  function Heads(entries: seq<Entry>, from: nat): (heads: seq<Head>)
    ensures |heads| == if from < |entries| then |entries| - from else 0
  {
    if from < |entries| then seq(|entries| - from,
                                 k requires 0 <= k < |entries| - from => HeadOf(entries[..from + 1 + k])) else []
  }

  predicate Matches(entries: seq<Entry>, head: Head) {
    if head.count == 0 then head == Head(0, 0, NoHash)
    else head.count <= |entries| && HeadOf(entries[..head.count]) == head
  }

  function Summary(entries: seq<Entry>, trusted: Anchor): Progress {
    Progress(HeadOf(entries).hash, HeadOf(entries).sequence, |entries|,
             Matches(entries, trusted.head), Heads(entries, trusted.head.count))
  }

  lemma {:induction false} WalkSnoc(rows: seq<Entry>, entry: Entry, keyring: set<string>, trusted: Anchor, at: Progress)
    ensures Walk(rows + [entry], keyring, trusted, at) ==
              match Walk(rows, keyring, trusted, at)
              case Err(reason) => Err(reason)
              case Ok(progress) => Visit(entry, keyring, trusted, progress)
    decreases |rows|
  {
    hide Visit;
    if rows == [] {
      assert Walk([entry][1..], keyring, trusted, at) == Ok(at);
    } else {
      assert (rows + [entry])[1..] == rows[1..] + [entry];
      if Visit(rows[0], keyring, trusted, at).Ok? {
        WalkSnoc(rows[1..], entry, keyring, trusted, Visit(rows[0], keyring, trusted, at).value);
      }
    }
  }

  lemma SummarySnoc(entries: seq<Entry>, entry: Entry, keyring: set<string>, trusted: Anchor)
    ensures var next := Visit(entry, keyring, trusted, Summary(entries, trusted));
      && (next.Ok? <==> Genuine(entry,
                                HeadOf(entries).hash) && HeadOf(entries).sequence < entry.sequence
                                    && entry.body.keyId in keyring)
      && (next.Ok? ==> next.value == Summary(entries + [entry], trusted))
      && (next.Err? ==> next.error == ChainBroken)
  {
    hide Genuine;
    var longer := entries + [entry];
    assert longer[..|longer|] == longer;
    assert forall k | 0 <= k <= |entries| :: longer[..k] == entries[..k];
    var heads, next := Heads(entries, trusted.head.count), Heads(longer, trusted.head.count);
    if trusted.head.count <= |entries| {
      assert next == heads + [HeadOf(longer)];
    }
  }

  /** The loop accepts exactly the unbroken chains signed with known keys, and sums them up. */
  lemma {:induction false} WalkMeaning(rows: seq<Entry>, keyring: set<string>, trusted: Anchor)
    ensures Walk(rows, keyring, trusted, Start(trusted)) ==
              if Chained(rows) && Known(rows, keyring) then Ok(Summary(rows, trusted)) else Err(ChainBroken)
    decreases |rows|
  {
    hide Walk, Visit, Chained, Summary;
    if rows == [] {
      EmptyWalk(keyring, trusted);
    } else {
      var init, last := rows[..|rows| - 1], rows[|rows| - 1];
      assert rows == init + [last];
      WalkMeaning(init, keyring, trusted);
      WalkSnoc(init, last, keyring, trusted, Start(trusted));
      ChainedSnoc(init, last);
      SummarySnoc(init, last, keyring, trusted);
      assert Known(rows, keyring) <==> Known(init, keyring) && last.body.keyId in keyring;
    }
  }

  lemma EmptyWalk(keyring: set<string>, trusted: Anchor)
    ensures Chained([]) && Walk([], keyring, trusted, Start(trusted)) == Ok(Summary([], trusted))
  {
  }

  lemma {:induction false} AllRows(entries: seq<Entry>, sequence: int)
    ensures |RowsAfter(entries, sequence)| == |entries| ==> RowsAfter(entries, sequence) == entries
    ensures (forall i | 0 <= i < |entries| :: entries[i].sequence > sequence) ==>
        RowsAfter(entries, sequence) == entries
  {
    if entries != [] {
      AllRows(entries[1..], sequence);
      assert entries == [entries[0]] + entries[1..];
    }
  }

  lemma ChainedRows(entries: seq<Entry>)
    requires Chained(entries)
    ensures RowsAfter(entries, 0) == entries
  {
    forall i: nat | i < |entries|
      ensures entries[i].sequence > 0
    {
      SequencesArePositive(entries, i);
      assert Continues(entries, i);
    }
    AllRows(entries, 0);
  }

  // ---------------------------------------------------------------- anchors against entries

  /** Line k is the sealed head of the first k entries. */
  predicate Anchored(lines: seq<Line>, entries: seq<Entry>) {
    && 1 <= |lines| <= |entries| + 1
    && forall k | 0 <= k < |lines| ::
        lines[k].Line? && Sealed(lines[k].anchor) && lines[k].anchor.head == HeadOf(entries[..k])
  }

  predicate Trusted(lines: seq<Line>, keyring: set<string>) {
    forall k | 0 <= k < |lines| :: lines[k].Line? && lines[k].anchor.keyId in keyring
  }

  lemma {:induction false} ReadAnchored(lines: seq<Line>, entries: seq<Entry>, keyring: set<string>)
    requires Chained(entries) && Anchored(lines, entries)
    ensures ReadLines(lines, keyring) ==
              if Trusted(lines, keyring) then Ok(lines[|lines| - 1].anchor) else Err(AnchorBroken)
    decreases |lines|
  {
    hide Chained;
    var n := |lines| - 1;
    assert entries[..0] == [];
    if n > 0 {
      ReadAnchored(lines[..n], entries, keyring);
      assert Trusted(lines, keyring) <==> Trusted(lines[..n], keyring) && lines[n].anchor.keyId in keyring;
      assert Continues(entries, n - 1) by { ContinuesAt(entries, n - 1); }
      assert entries[..n][..n - 1] == entries[..n - 1];
    }
  }

  lemma ContinuesAt(entries: seq<Entry>, i: nat)
    requires Chained(entries) && i < |entries|
    ensures Continues(entries, i)
  {
  }

  /** The database is sound and at most one entry ahead of an anchor journal that never lies. */
  predicate Good(store: Store) {
    && store.file.File? && Anchored(store.file.lines, store.database.entries)
    && SoundDatabase(store.database)
    && |store.database.entries| <= |store.file.lines|
  }

  predicate SoundDatabase(database: Database) {
    && Chained(database.entries) && database.state == HeadOf(database.entries)
    && database.counter >= database.state.sequence
  }

  /** The last anchor is the head of the whole chain. */
  predicate Level(store: Store) {
    store.file.File? && |store.file.lines| == |store.database.entries| + 1
  }

  lemma SoundHead(database: Database, readable: bool)
    requires SoundDatabase(database)
    ensures ReadHead(database, readable) == if readable then Ok(HeadOf(database.entries)) else Err(Unavailable)
  {
    SequencesArePositive(database.entries, |database.entries|);
    assert database.entries[..|database.entries|] == database.entries;
  }

  lemma LoadGood(store: Store, keyring: set<string>, repair: Fault)
    requires Good(store)
    ensures var loaded := LoadAnchor(store.file, keyring, repair);
      && loaded.file.File? && loaded.file.lines == store.file.lines && Good(store.(file := loaded.file))
      && (loaded.outcome.Done? ==>
            !loaded.file.torn && loaded.anchor.head == HeadOf(store.database.entries[..|store.file.lines| - 1]))
      && (loaded.outcome.Done? <==> Trusted(store.file.lines, keyring) && (store.file.torn ==> repair.Healthy?))
  {
    hide SoundDatabase;
    ChainedOf(store.database);
    ReadAnchored(store.file.lines, store.database.entries, keyring);
  }

  lemma ChainedOf(database: Database)
    requires SoundDatabase(database)
    ensures Chained(database.entries)
  {
  }

  lemma WriteGood(store: Store, keyId: string, at: nat, fault: AnchorFault)
    requires Good(store) && !store.file.torn && !Level(store)
    ensures var written := WriteAnchor(store.file, AnchorFor(keyId, HeadOf(store.database.entries), at), fault);
      && Good(store.(file := written.file)) && store.file.lines <= written.file.lines
      && (written.outcome.Done? ==> Level(store.(file := written.file)) && !written.file.torn)
      && (written.outcome.Done? <==> fault == Plainly(Healthy))
  {
    hide SoundDatabase;
    var entries := store.database.entries;
    assert entries[..|entries|] == entries;
  }

  // ---------------------------------------------------------------- verify

  /** On a sound store the loop finds the prefix matched and at most one head to recover. */
  lemma SummaryGood(store: Store, trusted: Anchor)
    requires Good(store) && trusted.head == HeadOf(store.database.entries[..|store.file.lines| - 1])
    ensures var progress := Summary(store.database.entries, trusted);
      && progress.matched && trusted.head.count == |store.file.lines| - 1
      && (trusted.head == HeadOf(store.database.entries) <==> Level(store))
      && (!Level(store) ==>
            progress.recovered == [HeadOf(store.database.entries)] && progress.count > trusted.head.count)
  {
    hide SoundDatabase;
    var entries := store.database.entries;
    assert entries[..|entries|] == entries && entries[..0] == [];
  }

  /** Verify keeps the store sound, leaves the database alone, and succeeds only by bringing the anchor level. */
  lemma VerifyGood(store: Store, service: Service, env: VerifyEnv)
    requires Good(store)
    ensures var turn := Verify(store, service, env);
      && Good(turn.store) && turn.store.database == store.database && store.file.lines <= turn.store.file.lines
      && (turn.outcome.Done? ==> Level(turn.store))
      && (turn.outcome.Done? <==>
            && (store.file.torn ==> env.repair.Healthy?) && env.listable && env.readable
            && Trusted(store.file.lines, service.keyring) && Known(store.database.entries, service.keyring)
            && (Level(store) || (env.faults != [] && env.faults[0] == Plainly(Healthy))))
  {
    hide Good, Walk, Summary, WriteAnchor, ReadHead, LoadAnchor;
    var entries := store.database.entries;
    DatabaseOfGood(store);
    LoadGood(store, service.keyring, env.repair);
    var loaded := LoadAnchor(store.file, service.keyring, env.repair);
    var repaired := store.(file := loaded.file);
    ChainedRows(entries);
    WalkMeaning(entries, service.keyring, loaded.anchor);
    SoundHead(store.database, env.readable);
    SummaryHead(entries, loaded.anchor);
    if loaded.outcome.Done? && env.listable && env.readable && Known(entries, service.keyring) {
      SummaryGood(repaired, loaded.anchor);
      if !Level(store) && env.faults != [] {
        WriteGood(repaired, service.keyId, env.at, env.faults[0]);
        OneAnchor(repaired.file, service.keyId, HeadOf(entries), env.at, env.faults);
      }
    }
  }

  lemma DatabaseOfGood(store: Store)
    requires Good(store)
    ensures store.file.File? && SoundDatabase(store.database) && Chained(store.database.entries)
  {
  }

  lemma SummaryHead(entries: seq<Entry>, trusted: Anchor)
    ensures var progress := Summary(entries, trusted);
      Head(progress.count, progress.after, progress.previous) == HeadOf(entries)
  {
  }

  lemma OneAnchor(file: File, keyId: string, head: Head, at: nat, faults: seq<AnchorFault>)
    requires faults != []
    ensures WriteAnchors(file, keyId, [head], at, faults) == WriteAnchor(file, AnchorFor(keyId, head, at), faults[0])
  {
    hide WriteAnchor;
    var written := WriteAnchor(file, AnchorFor(keyId, head, at), faults[0]);
    assert [head][1..] == [];
    assert WriteAnchors(written.file, keyId, [head][1..], at, faults[1..]) == Written(written.file, Done);
  }

  // ---------------------------------------------------------------- append

  function Depth(hash: Hash): nat {
    match hash
    case Sha(_, previous) => 1 + Depth(previous)
    case _ => 0
  }

  /** The hash of an entry wraps those of all entries before it, so no two entries of a chain hash alike. */
  lemma {:induction false} HashesDeepen(entries: seq<Entry>, i: nat)
    requires Chained(entries) && i < |entries|
    ensures Depth(entries[i].hash) == i + 1
    decreases i
  {
    ContinuesAt(entries, i);
    if i > 0 {
      HashesDeepen(entries, i - 1);
      assert entries[..i][i - 1] == entries[i - 1];
    }
  }

  predicate UsedId(entries: seq<Entry>, id: string) {
    exists i :: 0 <= i < |entries| && entries[i].body.id == id
  }

  /** A sound database refuses an entry at its head exactly when the id is taken. */
  lemma InsertsUnlessUsed(database: Database, body: Body)
    requires SoundDatabase(database)
    ensures var head := HeadOf(database.entries);
      var inserted := Insert(database, body, head.hash, Signature(body.keyId, Sha(body, head.hash)));
      inserted.Ok? <==> !UsedId(database.entries, body.id)
  {
    var entries, head := database.entries, HeadOf(database.entries);
    var hash := Sha(body, head.hash);
    var entry := Entry(database.counter + 1, body, head.hash, hash, Signature(body.keyId, hash));
    if entries != [] {
      HashesDeepen(entries, |entries| - 1);
    }
    forall i | 0 <= i < |entries|
      ensures Clashes(entries[i], entry) <==> entries[i].body.id == body.id
    {
      HashesDeepen(entries, i);
    }
  }

  lemma InsertGood(database: Database, body: Body)
    requires SoundDatabase(database)
    ensures var head := HeadOf(database.entries);
      var inserted := Insert(database, body, head.hash, Signature(body.keyId, Sha(body, head.hash)));
      inserted.Ok? ==>
        && SoundDatabase(inserted.value) && |inserted.value.entries| == |database.entries| + 1
        && database.entries <= inserted.value.entries && inserted.value.entries[|database.entries|].body == body
        && HeadOf(inserted.value.entries) == inserted.value.state
        && inserted.value.state.count == head.count + 1 && inserted.value.state.sequence > head.sequence
        && inserted.value.state.hash == Sha(body, head.hash)
  {
    var head := HeadOf(database.entries);
    var hash := Sha(body, head.hash);
    ChainedSnoc(database.entries, Entry(database.counter + 1, body, head.hash, hash, Signature(body.keyId, hash)));
  }

  lemma AheadGood(store: Store, database: Database)
    requires Good(store) && Level(store) && SoundDatabase(database)
    requires store.database.entries <= database.entries && |database.entries| == |store.database.entries| + 1
    ensures Good(store.(database := database)) && !Level(store.(database := database))
  {
    hide SoundDatabase;
    forall k | 0 <= k < |store.file.lines|
      ensures HeadOf(database.entries[..k]) == HeadOf(store.database.entries[..k])
    {
      assert database.entries[..k] == store.database.entries[..k];
    }
  }

  lemma CommitGood(store: Store, service: Service, env: AppendEnv)
    requires Good(store) && Level(store) && !store.file.torn
    ensures var turn := CommitEntry(store, service, HeadOf(store.database.entries), env);
      && Good(turn.store) && store.file.lines <= turn.store.file.lines
      && store.database.entries <= turn.store.database.entries
      && (turn.outcome.Done? ==>
            && Level(turn.store) && |turn.store.database.entries| == |store.database.entries| + 1
            && turn.store.database.entries[|store.database.entries|].body == env.request.(keyId := service.keyId))
      && (turn.outcome.Done? <==>
            && !UsedId(store.database.entries, env.request.id) && env.commit.Healthy? && env.rereadable
            && env.anchor == Plainly(Healthy))
  {
    hide Good, WriteAnchor, Insert, ReadHead, SoundDatabase, UsedId;
    var body := env.request.(keyId := service.keyId);
    var head := HeadOf(store.database.entries);
    DatabaseOfGood(store);
    InsertGood(store.database, body);
    InsertsUnlessUsed(store.database, body);
    var inserted := Insert(store.database, body, head.hash, Signature(body.keyId, Sha(body, head.hash)));
    if inserted.Ok? {
      var committed := store.(database := inserted.value);
      AheadGood(store, inserted.value);
      SoundHead(inserted.value, env.rereadable);
      WriteGood(committed, service.keyId, env.at, env.anchor);
    }
  }

  /**
    Append refuses while the database is ahead and leaves the database as it was.  It succeeds exactly
    when the request is proper and its id unused, the anchor is level and loads, and every step goes
    through; the new entry is then committed and anchored.
  */
  lemma AppendGood(store: Store, service: Service, env: AppendEnv)
    requires Good(store)
    ensures var turn := Append(store, service, env);
      && Good(turn.store) && store.file.lines <= turn.store.file.lines
      && store.database.entries <= turn.store.database.entries
      && (!Level(store) ==> !turn.outcome.Done? && turn.store.database == store.database)
      && (turn.outcome.Done? ==>
            && Level(turn.store) && |turn.store.database.entries| == |store.database.entries| + 1
            && turn.store.database.entries[|store.database.entries|].body == env.request.(keyId := service.keyId))
      && (turn.outcome.Done? <==>
            && env.canonical && env.fits && !UsedId(store.database.entries, env.request.id)
            && Level(store) && Trusted(store.file.lines, service.keyring) && (store.file.torn ==> env.repair.Healthy?)
            && env.readable && env.commit.Healthy? && env.rereadable && env.anchor == Plainly(Healthy))
  {
    hide Good, LoadAnchor, ReadHead, CommitEntry, SoundDatabase, UsedId;
    DatabaseOfGood(store);
    LoadGood(store, service.keyring, env.repair);
    SoundHead(store.database, env.readable);
    var loaded := LoadAnchor(store.file, service.keyring, env.repair);
    var repaired := store.(file := loaded.file);
    if loaded.outcome.Done? {
      SummaryGood(repaired, loaded.anchor);
      if Level(repaired) {
        CommitGood(repaired, service, env);
      }
    }
  }

  // ---------------------------------------------------------------- every run

  datatype Call = Call(service: Service, action: Action)

  function Play(store: Store, calls: seq<Call>): Store
    decreases |calls|
  {
    if calls == [] then store else Play(Perform(store, calls[0].service, calls[0].action).store, calls[1..])
  }

  lemma PerformGood(store: Store, service: Service, action: Action)
    requires Good(store)
    ensures var turn := Perform(store, service, action);
      && Good(turn.store) && store.file.lines <= turn.store.file.lines
          && store.database.entries <= turn.store.database.entries
      && (turn.outcome.Done? ==> Level(turn.store))
      && (turn.store.database != store.database ==> action.DoAppend? && Level(store))
  {
    hide Good, Verify, Append;
    DatabaseOfGood(store);
    match action
    case DoInitialize(env) => VerifyGood(store, service, env.verify);
    case DoVerify(env) => VerifyGood(store, service, env);
    case DoAppend(env) => AppendGood(store, service, env);
  }

  /**
    Over every run of appends, verifications, restarts with any keyring, crashes and torn writes the
    anchor journal stays the list of heads of successive prefixes, the database stays at most one
    entry ahead, and neither log ever loses or rewrites anything.
  */
  lemma {:induction false} EveryRunIsGood(store: Store, calls: seq<Call>)
    requires Good(store)
    ensures var end := Play(store, calls);
      && Good(end) && store.file.lines <= end.file.lines && store.database.entries <= end.database.entries
    decreases |calls|
  {
    hide Good, Perform;
    DatabaseOfGood(store);
    if calls != [] {
      PerformGood(store, calls[0].service, calls[0].action);
      EveryRunIsGood(Perform(store, calls[0].service, calls[0].action).store, calls[1..]);
    }
  }

  // ---------------------------------------------------------------- the genesis anchor

  /**
    First start: the anchor is good exactly when the genesis line reached the file whole, and broken
    exactly when it did in part.
  */
  lemma GenesisAnchor(store: Store, service: Service, env: InitEnv)
    requires store.file.Missing? && store.database == Database([], store.database.counter, Head(0, 0, NoHash))
    requires env.inspectable && env.readable
    ensures var turn := Initialize(store, service, env);
      && (Good(turn.store) <==> env.genesis.Plainly? && Lands(env.genesis.fault))
      && (Good(turn.store) ==> Level(turn.store))
      && (!Good(turn.store) ==> turn.store == store || Broken(turn.store))
      && (Broken(turn.store) <==> !env.genesis.Plainly?)
  {
  }

  /** An anchor journal without one complete line. */
  predicate Broken(store: Store) {
    store.file.File? && store.file.lines == []
  }

  /** A broken genesis is final: no call ever succeeds again, whatever the environment does. */
  lemma {:induction false} BrokenForever(store: Store, calls: seq<Call>, service: Service, action: Action)
    requires Broken(store)
    ensures Broken(Play(store, calls)) && Play(store, calls).database == store.database
    ensures !Perform(Play(store, calls), service, action).outcome.Done?
    decreases |calls|
  {
    if calls != [] {
      assert Perform(store, calls[0].service, calls[0].action).store == store;
      BrokenForever(store, calls[1..], service, action);
    }
  }

  // ---------------------------------------------------------------- what a successful verification proves

  /** Hash-linked: what the anchored head was computed from. */
  predicate Linked(entries: seq<Entry>) {
    forall i | 0 <= i < |entries| :: entries[i].hash == Sha(entries[i].body, HeadOf(entries[..i]).hash)
  }

  predicate SameHashedFields(a: Entry, b: Entry) {
    a.body == b.body && a.previous == b.previous && a.hash == b.hash
  }

  lemma ChainedIsLinked(entries: seq<Entry>)
    requires Chained(entries)
    ensures Linked(entries)
  {
    forall i | 0 <= i < |entries|
      ensures entries[i].hash == Sha(entries[i].body, HeadOf(entries[..i]).hash)
    {
      assert Continues(entries, i);
    }
  }

  lemma LinkedPrefix(entries: seq<Entry>, n: nat)
    requires Linked(entries) && n <= |entries|
    ensures Linked(entries[..n])
  {
    forall i | 0 <= i < n
      ensures entries[i].hash == Sha(entries[i].body, HeadOf(entries[..n][..i]).hash)
    {
      assert entries[..n][..i] == entries[..i];
    }
  }

  /** The head hash fixes every hashed field of every entry of the chain. */
  lemma {:induction false} HeadFixesChain(a: seq<Entry>, b: seq<Entry>, i: nat)
    requires Linked(a) && Linked(b) && |a| == |b| && HeadOf(a).hash == HeadOf(b).hash && i < |a|
    ensures a[i].body == b[i].body && a[i].hash == b[i].hash && HeadOf(a[..i]).hash == HeadOf(b[..i]).hash
    decreases |a|
  {
    var n := |a| - 1;
    assert a[n].hash == Sha(a[n].body, HeadOf(a[..n]).hash) && b[n].hash == Sha(b[n].body, HeadOf(b[..n]).hash);
    if i < n {
      LinkedPrefix(a, n);
      LinkedPrefix(b, n);
      HeadFixesChain(a[..n], b[..n], i);
      assert a[..n][..i] == a[..i] && b[..n][..i] == b[..i];
    }
  }

  lemma {:induction false} ReadGivesGenuineHead(lines: seq<Line>, keyring: set<string>)
    ensures var read := ReadLines(lines, keyring);
      read.Ok? ==> read.value.head.count == |lines| - 1 && (|lines| == 1 ==> read.value.head == Head(0, 0, NoHash))
    decreases |lines|
  {
    if |lines| > 1 {
      ReadGivesGenuineHead(lines[..|lines| - 1], keyring);
    }
  }

  /** Success on any database and any anchor file: one unbroken chain that carries the trusted head. */
  lemma VerifiedChain(store: Store, service: Service, env: VerifyEnv)
    requires Verify(store, service, env).outcome.Done?
    ensures store.file.File? && ReadLines(store.file.lines, service.keyring).Ok?
    ensures var trusted := ReadLines(store.file.lines, service.keyring).value;
      && Chained(store.database.entries) && Known(store.database.entries, service.keyring)
      && trusted.head.count <= |store.database.entries|
      && HeadOf(store.database.entries[..trusted.head.count]) == trusted.head
  {
    hide Walk, Chained, ReadLines;
    var loaded := LoadAnchor(store.file, service.keyring, env.repair);
    var rows := RowsAfter(store.database.entries, 0);
    WalkMeaning(rows, service.keyring, loaded.anchor);
    ReadGivesGenuineHead(store.file.lines, service.keyring);
    AllRows(store.database.entries, 0);
    assert rows == store.database.entries;
    assert rows[..|rows|] == rows && rows[..0] == [];
  }

  /** And conversely: such a chain is accepted as soon as the missing anchors can be written. */
  lemma ChainIsVerified(store: Store, service: Service, env: VerifyEnv)
    requires LoadAnchor(store.file, service.keyring, env.repair).outcome.Done? && env.listable && env.readable
    requires SoundDatabase(store.database) && Known(store.database.entries, service.keyring)
    requires var trusted := LoadAnchor(store.file, service.keyring, env.repair).anchor;
      trusted.head.count <= |store.database.entries|
          && HeadOf(store.database.entries[..trusted.head.count]) == trusted.head
    ensures var loaded := LoadAnchor(store.file, service.keyring, env.repair);
      Verify(store, service, env).outcome ==
        WriteAnchors(loaded.file, service.keyId, Heads(store.database.entries, loaded.anchor.head.count), env.at,
                     env.faults).outcome
  {
    hide Walk, ReadLines, LoadAnchor, ReadHead, WriteAnchor;
    var loaded := LoadAnchor(store.file, service.keyring, env.repair);
    var entries := store.database.entries;
    ChainedRows(entries);
    WalkMeaning(entries, service.keyring, loaded.anchor);
    SoundHead(store.database, env.readable);
    assert entries[..|entries|] == entries && entries[..0] == [];
  }

  /**
    The anchor file was kept with an original database, the database was then replaced by anything
    at all: a verification that succeeds has found every anchored entry in its place with every
    hashed field unaltered.  Dropping, reordering or altering one is always reported.
  */
  lemma TamperingIsReported(original: Store, database: Database, service: Service, env: VerifyEnv)
    requires Good(original)
    requires Verify(original.(database := database), service, env).outcome.Done?
    ensures |database.entries| >= |original.file.lines| - 1
    ensures forall i | 0 <= i < |original.file.lines| - 1 ::
        SameHashedFields(database.entries[i], original.database.entries[i])
  {
    hide Verify, ReadLines, SoundDatabase;
    var tampered := original.(database := database);
    var lines, n := original.file.lines, |original.file.lines| - 1;
    VerifiedChain(tampered, service, env);
    ChainedOf(original.database);
    ReadAnchored(lines, original.database.entries, service.keyring);
    var trusted := ReadLines(lines, service.keyring).value;
    assert trusted.head == HeadOf(original.database.entries[..n]);
    forall i: nat | i < n
      ensures SameHashedFields(database.entries[i], original.database.entries[i])
    {
      PrefixesAgree(database.entries, original.database.entries, n, i);
    }
  }

  lemma PrefixesAgree(a: seq<Entry>, b: seq<Entry>, n: nat, i: nat)
    requires Chained(a) && Chained(b) && i < n <= |a| && n <= |b| && HeadOf(a[..n]) == HeadOf(b[..n])
    ensures SameHashedFields(a[i], b[i])
  {
    ChainedIsLinked(a);
    ChainedIsLinked(b);
    LinkedPrefix(a, n);
    LinkedPrefix(b, n);
    HeadFixesChain(a[..n], b[..n], i);
    assert a[..n][..i] == a[..i] && b[..n][..i] == b[..i];
    assert Continues(a, i) && Continues(b, i);
  }
}
