/**
  The audit chain and its external anchor journal as a two-log protocol (core/audit/service.go).

  SHA-256 is a free constructor and therefore injective; a signature is the pair of the key that
  made it and the digest it covers.  The SQL store is a table that commits atomically, the anchor
  journal a list of complete lines and possibly a torn tail.  Every operation runs under the
  cross-process anchor lock, so each is one transition of the shared state.
*/
module AuditChain {
  import opened Common

  // ---------------------------------------------------------------- entries and anchors

  /** The hashed fields of an entry other than the previous hash. */
  datatype Body = Body(
    id: string, keyId: string, occurredAt: nat, actorType: string, actorId: string, action: string,
    resourceType: string, resourceId: string, outcome: string, details: string)

  /** A hash column: empty, a digest of an entry, or any other text somebody put there. */
  datatype Hash = NoHash | Sha(body: Body, previous: Hash) | OtherText(text: string)

  datatype Signature = Signature(keyId: string, digest: Hash) | Noise

  datatype Entry = Entry(sequence: int, body: Body, previous: Hash, hash: Hash, signature: Signature)

  datatype Head = Head(count: nat, sequence: int, hash: Hash)

  function HeadOf(entries: seq<Entry>): Head {
    if entries == [] then Head(0, 0, NoHash)
    else Head(|entries|, entries[|entries| - 1].sequence, entries[|entries| - 1].hash)
  }

  const ANCHOR_VERSION := "antiflock.audit-anchor/v1"

  datatype Seal = Seal(version: string, keyId: string, head: Head, updatedAt: nat) | NoSeal

  datatype Anchor = Anchor(version: string, keyId: string, head: Head, updatedAt: nat, seal: Seal)

  predicate Sealed(anchor: Anchor) {
    anchor.version == ANCHOR_VERSION && anchor.seal == Seal(anchor.version, anchor.keyId, anchor.head, anchor.updatedAt)
  }

  function AnchorFor(keyId: string, head: Head, at: nat): Anchor {
    Anchor(ANCHOR_VERSION, keyId, head, at, Seal(ANCHOR_VERSION, keyId, head, at))
  }

  datatype Line = Line(anchor: Anchor) | Unreadable

  /** `torn` says that bytes follow the last newline. */
  datatype File = Missing | File(lines: seq<Line>, torn: bool)

  /** Rows in primary-key order, the autoincrement counter, and the singleton state row. */
  datatype Database = Database(entries: seq<Entry>, counter: nat, state: Head)

  predicate Table(entries: seq<Entry>) {
    forall i, j | 0 <= i < j < |entries| :: entries[i].sequence < entries[j].sequence
  }

  datatype Service = Service(keyId: string, keyring: set<string>)

  datatype Store = Store(database: Database, file: File)

  // ---------------------------------------------------------------- environment

  /** An appended anchor line may also reach the file only in part, or the file may be created and stay empty. */
  datatype AnchorFault = Plainly(fault: Fault) | Splits(dies: bool) | Creates(dies: bool)

  datatype Reason =
    | Unavailable | AnchorMissing | AnchorBroken | NotLevel | InvalidRequest | Conflict
    | ChainBroken | StateDiverges | Truncated | EntriesWithoutAnchor

  datatype Outcome = Done | Refused(reason: Reason) | Died

  function Verdict(fault: Fault): Outcome {
    if Kills(fault) then Died else if fault.Healthy? then Done else Refused(Unavailable)
  }

  // ---------------------------------------------------------------- the anchor journal

  /** verifyAnchor and the monotonicity rule of one line after the current anchor. */
  predicate Follows(line: Line, current: Anchor, keyring: set<string>) {
    && line.Line? && Sealed(line.anchor) && line.anchor.keyId in keyring
    && line.anchor.head.count == current.head.count + 1 && line.anchor.head.sequence > current.head.sequence
    && line.anchor.head.hash != NoHash
  }

  predicate Genesis(line: Line, keyring: set<string>) {
    line.Line? && Sealed(line.anchor) && line.anchor.keyId in keyring && line.anchor.head == Head(0, 0, NoHash)
  }

  /** The last anchor of a journal whose every line is in order. */
  function ReadLines(lines: seq<Line>, keyring: set<string>): Result<Anchor, Reason> {
    if lines == [] then Err(AnchorBroken)
    else
      var last := lines[|lines| - 1];
      if |lines| == 1 then
        if Genesis(last, keyring) then Ok(last.anchor) else Err(AnchorBroken)
      else
        match ReadLines(lines[..|lines| - 1], keyring)
        case Err(reason) => Err(reason)
        case Ok(current) => if Follows(last, current, keyring) then Ok(last.anchor) else Err(AnchorBroken)
  }

  datatype Loaded = Loaded(file: File, outcome: Outcome, anchor: Anchor)

  const NO_ANCHOR := Anchor("", "", Head(0, 0, NoHash), 0, NoSeal)

  /** Truncates a torn tail before it reads the lines; the truncation itself is a durable write. */
  function LoadAnchor(file: File, keyring: set<string>, repair: Fault): Loaded {
    if file.Missing? then Loaded(file, Refused(AnchorMissing), NO_ANCHOR)
    else if file.lines == [] then Loaded(file, Refused(AnchorBroken), NO_ANCHOR)
    else if !file.torn then ReadFile(file, keyring)
    else
      var repaired := if Lands(repair) then File(file.lines, false) else file;
      if repair.Healthy? then ReadFile(repaired, keyring) else Loaded(repaired, Verdict(repair), NO_ANCHOR)
  }

  function ReadFile(file: File, keyring: set<string>): Loaded
    requires file.File?
  {
    match ReadLines(file.lines, keyring)
    case Ok(anchor) => Loaded(file, Done, anchor)
    case Err(reason) => Loaded(file, Refused(reason), NO_ANCHOR)
  }

  datatype Written = Written(file: File, outcome: Outcome)

  /** Bytes are appended at the end of the file: after a torn tail they would only complete a broken line. */
  function WriteAnchor(file: File, anchor: Anchor, fault: AnchorFault): Written {
    var lines := if file.File? then file.lines else [];
    var torn := file.File? && file.torn;
    match fault
    case Splits(dies) => Written(File(lines, true), if dies then Died else Refused(Unavailable))
    case Creates(dies) => Written(File(lines, torn), if dies then Died else Refused(Unavailable))
    case Plainly(plain) =>
      Written(if Lands(plain) then File(lines + [if torn then Unreadable else Line(anchor)], false)
              else file, Verdict(plain))
  }

  // ---------------------------------------------------------------- the database

  function ReadHead(database: Database, readable: bool): Result<Head, Reason> {
    if !readable then Err(Unavailable)
    else if database.state != HeadOf(database.entries) || database.state.sequence < 0 then Err(StateDiverges)
    else Ok(database.state)
  }

  function RowsAfter(entries: seq<Entry>, sequence: int): (rows: seq<Entry>)
    ensures |rows| <= |entries|
  {
    if entries == [] then []
    else if entries[0].sequence > sequence then [entries[0]] + RowsAfter(entries[1..], sequence)
    else RowsAfter(entries[1..], sequence)
  }

  /** Insert and advance the state row in one transaction; ids and hashes are unique, the head must still match. */
  function Insert(database: Database, body: Body, previous: Hash, signature: Signature): Result<Database, Reason> {
    var entry := Entry(database.counter + 1, body, previous, Sha(body, previous), signature);
    if database.state.hash != previous
        || (exists i :: 0 <= i < |database.entries| && Clashes(database.entries[i], entry)) then Err(Conflict)
    else Ok(Database(database.entries + [entry], entry.sequence,
                     Head(database.state.count + 1, entry.sequence, entry.hash)))
  }

  predicate Clashes(row: Entry, entry: Entry) {
    row.body.id == entry.body.id || row.hash == entry.hash
  }

  // ---------------------------------------------------------------- verification

  /** What the verification loop carries from row to row. */
  datatype Progress = Progress(previous: Hash, after: int, count: nat, matched: bool, recovered: seq<Head>)

  function Start(trusted: Anchor): Progress {
    Progress(NoHash, 0, 0, trusted.head == Head(0, 0, NoHash), [])
  }

  predicate Genuine(entry: Entry, previous: Hash) {
    && entry.previous == previous && entry.hash == Sha(entry.body, entry.previous)
    && entry.signature == Signature(entry.body.keyId, entry.hash)
  }

  function Visit(entry: Entry, keyring: set<string>, trusted: Anchor, at: Progress): Result<Progress, Reason> {
    if entry.sequence <= at.after || !Genuine(entry, at.previous) || entry.body.keyId !in keyring then Err(ChainBroken)
    else
      var head := Head(at.count + 1, entry.sequence, entry.hash);
      Ok(Progress(
        head.hash, head.sequence, head.count,
        if head.count == trusted.head.count
            then head.sequence == trusted.head.sequence && head.hash == trusted.head.hash else at.matched,
        if head.count > trusted.head.count then at.recovered + [head] else at.recovered))
  }

  function Walk(rows: seq<Entry>, keyring: set<string>, trusted: Anchor, at: Progress): Result<Progress, Reason>
    decreases |rows|
  {
    if rows == [] then Ok(at)
    else
      match Visit(rows[0], keyring, trusted, at)
      case Err(reason) => Err(reason)
      case Ok(next) => Walk(rows[1..], keyring, trusted, next)
  }

  /** Writes the anchors of the recovered heads in order, one fault per write; no fault left means death. */
  function WriteAnchors(file: File, keyId: string, heads: seq<Head>, at: nat, faults: seq<AnchorFault>): Written
    decreases |heads|
  {
    if heads == [] then Written(file, Done)
    else if faults == [] then Written(file, Died)
    else
      var written := WriteAnchor(file, AnchorFor(keyId, heads[0], at), faults[0]);
      if written.outcome.Done? then WriteAnchors(written.file, keyId, heads[1..], at, faults[1..]) else written
  }

  datatype VerifyEnv = VerifyEnv(repair: Fault, listable: bool, readable: bool, at: nat, faults: seq<AnchorFault>)

  datatype Turn = Turn(store: Store, outcome: Outcome)

  function Verify(store: Store, service: Service, env: VerifyEnv): Turn {
    var loaded := LoadAnchor(store.file, service.keyring, env.repair);
    var repaired := store.(file := loaded.file);
    if !loaded.outcome.Done? then Turn(repaired, loaded.outcome)
    else if !env.listable then Turn(repaired, Refused(Unavailable))
    else
      match Walk(RowsAfter(store.database.entries, 0), service.keyring, loaded.anchor, Start(loaded.anchor))
      case Err(reason) => Turn(repaired, Refused(reason))
      case Ok(progress) => Settle(repaired, service, loaded.anchor, progress, env)
  }

  /** What the loop learned, against the state row and the trusted anchor. */
  function Settle(store: Store, service: Service, trusted: Anchor, progress: Progress, env: VerifyEnv): Turn {
    var actual := Head(progress.count, progress.after, progress.previous);
    match ReadHead(store.database, env.readable)
    case Err(reason) => Turn(store, Refused(reason))
    case Ok(state) =>
      if state != actual then Turn(store, Refused(StateDiverges))
      else if trusted.head == actual then Turn(store, Done)
      else if progress.count > trusted.head.count && progress.matched then
        var written := WriteAnchors(store.file, service.keyId, progress.recovered, env.at, env.faults);
        Turn(store.(file := written.file), written.outcome)
      else Turn(store, Refused(Truncated))
  }

  // ---------------------------------------------------------------- initialize and append

  datatype InitEnv = InitEnv(inspectable: bool, readable: bool, at: nat, genesis: AnchorFault, verify: VerifyEnv)

  function Initialize(store: Store, service: Service, env: InitEnv): Turn {
    if !env.inspectable then Turn(store, Refused(Unavailable))
    else if store.file.Missing? then
      match ReadHead(store.database, env.readable)
      case Err(reason) => Turn(store, Refused(reason))
      case Ok(head) =>
        if head.count != 0 then Turn(store, Refused(EntriesWithoutAnchor))
        else
          var written := WriteAnchor(store.file, AnchorFor(service.keyId, Head(0, 0, NoHash), env.at), env.genesis);
          Turn(store.(file := written.file), written.outcome)
    else Verify(store, service, env.verify)
  }

  /** `request` carries everything but the key id; `canonical` and `fits` are the request checks. */
  datatype AppendEnv = AppendEnv(
    request: Body, canonical: bool, fits: bool, repair: Fault, readable: bool, commit: Fault, rereadable: bool,
    at: nat, anchor: AnchorFault)

  function Append(store: Store, service: Service, env: AppendEnv): Turn {
    if !env.canonical then Turn(store, Refused(InvalidRequest))
    else
      var loaded := LoadAnchor(store.file, service.keyring, env.repair);
      var repaired := store.(file := loaded.file);
      if !loaded.outcome.Done? then Turn(repaired, loaded.outcome)
      else
        match ReadHead(store.database, env.readable)
        case Err(reason) => Turn(repaired, Refused(reason))
        case Ok(head) =>
          if loaded.anchor.head != head then Turn(repaired, Refused(NotLevel))
          else if !env.fits then Turn(repaired, Refused(InvalidRequest))
          else CommitEntry(repaired, service, head, env)
  }

  /** The entry commits first; the anchor advances only after the new head was read back. */
  function CommitEntry(store: Store, service: Service, head: Head, env: AppendEnv): Turn {
    var body := env.request.(keyId := service.keyId);
    match Insert(store.database, body, head.hash, Signature(service.keyId, Sha(body, head.hash)))
    case Err(reason) => Turn(store, if Kills(env.commit) then Died else Refused(reason))
    case Ok(next) =>
      var committed := if Lands(env.commit) then store.(database := next) else store;
      if !env.commit.Healthy? then Turn(committed, Verdict(env.commit))
      else AdvanceAnchor(committed, service, head, Sha(body, head.hash), env)
  }

  function AdvanceAnchor(store: Store, service: Service, head: Head, hash: Hash, env: AppendEnv): Turn {
    match ReadHead(store.database, env.rereadable)
    case Err(reason) => Turn(store, Refused(reason))
    case Ok(next) =>
      if next.count != head.count + 1 || next.sequence <= head.sequence || next.hash != hash
          then Turn(store, Refused(StateDiverges))
      else
        var written := WriteAnchor(store.file, AnchorFor(service.keyId, next, env.at), env.anchor);
        Turn(store.(file := written.file), written.outcome)
  }

  datatype Action =
    | DoInitialize(init: InitEnv)
    | DoAppend(append: AppendEnv)
    | DoVerify(verify: VerifyEnv)

  function Perform(store: Store, service: Service, action: Action): Turn {
    match action
    case DoInitialize(env) => Initialize(store, service, env)
    case DoAppend(env) => Append(store, service, env)
    case DoVerify(env) => Verify(store, service, env)
  }
}
