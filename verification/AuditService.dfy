/**
  The audit service object (core/audit/service.go:32-314, 361-450): loads and repairs the anchor
  journal, appends entries and verifies the chain page by page, updating the database and the
  anchor file in place.  Each method is proved to be the transition of the protocol model.
*/
module AuditService {
  import opened Common
  import opened AuditChain

  const PAGE_SIZE: nat := 100

  class AuditDatabase {
    var contents: Database

    constructor (contents: Database)
      ensures this.contents == contents
    {
      this.contents := contents;
    }

    method GetHead(readable: bool) returns (reply: Result<Head, Reason>)
      ensures reply == ReadHead(contents, readable)
    {
      if !readable {
        return Err(Unavailable);
      }
      var actual := HeadOf(contents.entries);
      if contents.state != actual || contents.state.sequence < 0 {
        return Err(StateDiverges);
      }
      reply := Ok(contents.state);
    }

    /** SELECT ... WHERE sequence > ? ORDER BY sequence LIMIT ? */
    method ListAfter(sequence: int, limit: nat) returns (page: seq<Entry>)
      requires Table(contents.entries)
      ensures page == if |RowsAfter(contents.entries, sequence)| <= limit then RowsAfter(contents.entries, sequence)
                      else RowsAfter(contents.entries, sequence)[..limit]
    {
      page := [];
      var i := 0;
      while i < |contents.entries| && contents.entries[i].sequence <= sequence
        invariant i <= |contents.entries|
        invariant RowsAfter(contents.entries, sequence) == RowsAfter(contents.entries[i..], sequence)
      {
        i := i + 1;
      }
      AllAfter(contents.entries[i..], sequence);
      var rows := contents.entries[i..];
      page := if |rows| <= limit then rows else rows[..limit];
    }

    method CommitMutation(body: Body, previous: Hash, signature: Signature, fault: Fault) returns (outcome: Outcome)
      modifies this
      ensures var inserted := Insert(old(contents), body, previous, signature);
        && outcome == (if inserted.Ok? then Verdict(fault)
                       else if Kills(fault) then Died else Refused(inserted.error))
        && contents == if inserted.Ok? && Lands(fault) then inserted.value else old(contents)
    {
      var entry := Entry(contents.counter + 1, body, previous, Sha(body, previous), signature);
      var clash := contents.state.hash != previous;
      for i := 0 to |contents.entries|
        invariant clash <==> contents.state.hash != previous || exists k ::
            0 <= k < i && Clashes(contents.entries[k], entry)
      {
        clash := clash || Clashes(contents.entries[i], entry);
      }
      if clash {
        return if Kills(fault) then Died else Refused(Conflict);
      }
      if Lands(fault) {
        contents := Database(contents.entries + [entry], entry.sequence,
                             Head(contents.state.count + 1, entry.sequence, entry.hash));
      }
      outcome := Verdict(fault);
    }
  }

  lemma {:induction false} AllAfter(rows: seq<Entry>, sequence: int)
    requires Table(rows) && (rows != [] ==> rows[0].sequence > sequence)
    ensures RowsAfter(rows, sequence) == rows
  {
    if rows != [] {
      AllAfter(rows[1..], sequence);
    }
  }

  /** In key order, the rows after the i-th row are the rest of the table. */
  lemma {:induction false} RowsAfterRow(rows: seq<Entry>, base: int, i: nat)
    requires Table(rows) && i < |RowsAfter(rows, base)|
    ensures RowsAfter(rows, RowsAfter(rows, base)[i].sequence) == RowsAfter(rows, base)[i + 1..]
  {
    if rows[0].sequence <= base {
      RowsAfterRow(rows[1..], base, i);
      RowIsLater(rows[1..], base, i);
    } else {
      AllAfter(rows, base);
      RowsFrom(rows, i + 1, rows[i].sequence);
    }
  }

  lemma {:induction false} RowIsLater(rows: seq<Entry>, base: int, i: nat)
    requires i < |RowsAfter(rows, base)|
    ensures RowsAfter(rows, base)[i].sequence > base
  {
    if rows[0].sequence <= base {
      RowIsLater(rows[1..], base, i);
    } else if i > 0 {
      RowIsLater(rows[1..], base, i - 1);
    }
  }

  lemma {:induction false} RowsFrom(rows: seq<Entry>, n: nat, sequence: int)
    requires Table(rows) && n <= |rows|
    requires forall k | 0 <= k < n :: rows[k].sequence <= sequence
    requires forall k | n <= k < |rows| :: rows[k].sequence > sequence
    ensures RowsAfter(rows, sequence) == rows[n..]
    decreases n
  {
    if n == 0 {
      AllAfter(rows, sequence);
    } else {
      RowsFrom(rows[1..], n - 1, sequence);
    }
  }

  lemma WalkNothing(keyring: set<string>, trusted: Anchor, at: Progress)
    ensures Walk([], keyring, trusted, at) == Ok(at)
  {
  }

  class AuditService {
    const service: Service
    const database: AuditDatabase
    var file: File

    constructor (service: Service, database: AuditDatabase, file: File)
      ensures this.service == service && this.database == database && this.file == file
    {
      this.service, this.database, this.file := service, database, file;
    }

    function Contents(): Store
      reads this, database
    {
      Store(database.contents, file)
    }

    /** Truncates a torn tail, then checks every line against the one before it. */
    method Load(repair: Fault) returns (outcome: Outcome, anchor: Anchor)
      modifies this
      ensures Loaded(file, outcome, anchor) == LoadAnchor(old(file), service.keyring, repair)
    {
      outcome, anchor := Done, NO_ANCHOR;
      if file.Missing? {
        return Refused(AnchorMissing), NO_ANCHOR;
      }
      if file.lines == [] {
        return Refused(AnchorBroken), NO_ANCHOR;
      }
      if file.torn {
        if Lands(repair) {
          file := File(file.lines, false);
        }
        if !repair.Healthy? {
          return Verdict(repair), NO_ANCHOR;
        }
      }
      var read := ScanLines(file.lines, service.keyring);
      if read.Err? {
        return Refused(read.error), NO_ANCHOR;
      }
      anchor := read.value;
    }

    method Write(head: Head, at: nat, fault: AnchorFault) returns (outcome: Outcome)
      modifies this
      ensures Written(file, outcome) == WriteAnchor(old(file), AnchorFor(service.keyId, head, at), fault)
    {
      var anchor := AnchorFor(service.keyId, head, at);
      var lines := if file.File? then file.lines else [];
      var torn := file.File? && file.torn;
      match fault {
        case Splits(dies) =>
          file := File(lines, true);
          outcome := if dies then Died else Refused(Unavailable);
        case Creates(dies) =>
          file := File(lines, torn);
          outcome := if dies then Died else Refused(Unavailable);
        case Plainly(plain) =>
          if Lands(plain) {
            file := File(lines + [if torn then Unreadable else Line(anchor)], false);
          }
          outcome := Verdict(plain);
      }
    }

    /** The paged loop: whatever the page boundaries, the rows are walked once and in order. */
    method WalkPages(trusted: Anchor) returns (result: Result<Progress, Reason>)
      requires Table(database.contents.entries)
      ensures result == Walk(RowsAfter(database.contents.entries, 0), service.keyring, trusted, Start(trusted))
    {
      hide Walk, Visit, RowsAfter, Table;
      var progress := Start(trusted);
      ghost var entries := database.contents.entries;
      ghost var rows := RowsAfter(entries, 0);
      ghost var done := 0;
      assert rows[0..] == rows;
      while true
        invariant 0 <= done <= |rows| && database.contents.entries == entries
        invariant RowsAfter(entries, progress.after) == rows[done..]
        invariant Walk(rows, service.keyring, trusted, Start(trusted))
            == Walk(rows[done..], service.keyring, trusted, progress)
        decreases |rows| - done
      {
        var page := database.ListAfter(progress.after, PAGE_SIZE);
        if page == [] {
          assert rows[done..] == [];
          WalkNothing(service.keyring, trusted, progress);
          return Ok(progress);
        }
        result := WalkPage(page, trusted, progress, rows[done..]);
        if result.Err? {
          return;
        }
        progress := result.value;
        RowsAfterRow(entries, 0, done + |page| - 1);
        assert rows[done..][|page|..] == rows[done + |page|..];
        done := done + |page|;
      }
    }

    /** One page: either a row breaks the chain, or the loop is as far as the page's last row. */
    method WalkPage(page: seq<Entry>, trusted: Anchor, start: Progress,
                    ghost rest: seq<Entry>) returns (result: Result<Progress, Reason>)
      requires page != [] && page <= rest
      ensures result.Err? ==> Walk(rest, service.keyring, trusted, start) == result
      ensures result.Ok? ==>
                && result.value.after == page[|page| - 1].sequence
                && Walk(rest, service.keyring, trusted, start)
                    == Walk(rest[|page|..], service.keyring, trusted, result.value)
    {
      var progress := start;
      for i := 0 to |page|
        invariant i > 0 ==> progress.after == page[i - 1].sequence
        invariant Walk(rest, service.keyring, trusted, start) == Walk(rest[i..], service.keyring, trusted, progress)
      {
        assert rest[i..][0] == page[i] && rest[i..][1..] == rest[i + 1..];
        match Visit(page[i], service.keyring, trusted, progress) {
          case Err(reason) => return Err(reason);
          case Ok(next) => progress := next;
        }
      }
      result := Ok(progress);
    }

    method WriteAll(heads: seq<Head>, at: nat, faults: seq<AnchorFault>) returns (outcome: Outcome)
      modifies this
      ensures Written(file, outcome) == WriteAnchors(old(file), service.keyId, heads, at, faults)
    {
      outcome := Done;
      for i := 0 to |heads|
        invariant i <= |faults| && outcome == Done
        invariant WriteAnchors(old(file), service.keyId, heads, at, faults)
            == WriteAnchors(file, service.keyId, heads[i..], at, faults[i..])
      {
        if i == |faults| {
          return Died;
        }
        outcome := Write(heads[i], at, faults[i]);
        if !outcome.Done? {
          return;
        }
        assert heads[i..][1..] == heads[i + 1..] && faults[i..][1..] == faults[i + 1..];
      }
    }

    method VerifyChain(env: VerifyEnv) returns (outcome: Outcome)
      requires Table(database.contents.entries)
      modifies this
      ensures Turn(Contents(), outcome) == Verify(old(Contents()), service, env)
    {
      var loaded, trusted := Load(env.repair);
      if !loaded.Done? {
        return loaded;
      }
      if !env.listable {
        return Refused(Unavailable);
      }
      var walked := WalkPages(trusted);
      if walked.Err? {
        return Refused(walked.error);
      }
      var progress := walked.value;
      var actual := Head(progress.count, progress.after, progress.previous);
      var state := database.GetHead(env.readable);
      if state.Err? {
        return Refused(state.error);
      }
      if state.value != actual {
        return Refused(StateDiverges);
      }
      if trusted.head == actual {
        return Done;
      }
      if progress.count > trusted.head.count && progress.matched {
        outcome := WriteAll(progress.recovered, env.at, env.faults);
        return;
      }
      outcome := Refused(Truncated);
    }

    method InitializeAnchor(env: InitEnv) returns (outcome: Outcome)
      requires Table(database.contents.entries)
      modifies this
      ensures Turn(Contents(), outcome) == Initialize(old(Contents()), service, env)
    {
      if !env.inspectable {
        return Refused(Unavailable);
      }
      if file.Missing? {
        var head := database.GetHead(env.readable);
        if head.Err? {
          return Refused(head.error);
        }
        if head.value.count != 0 {
          return Refused(EntriesWithoutAnchor);
        }
        outcome := Write(Head(0, 0, NoHash), env.at, env.genesis);
        return;
      }
      outcome := VerifyChain(env.verify);
    }

    method AppendEntry(env: AppendEnv) returns (outcome: Outcome)
      modifies this, database
      ensures Turn(Contents(), outcome) == Append(old(Contents()), service, env)
    {
      if !env.canonical {
        return Refused(InvalidRequest);
      }
      var loaded, current := Load(env.repair);
      if !loaded.Done? {
        return loaded;
      }
      var head := database.GetHead(env.readable);
      if head.Err? {
        return Refused(head.error);
      }
      if current.head != head.value {
        return Refused(NotLevel);
      }
      if !env.fits {
        return Refused(InvalidRequest);
      }
      var body := env.request.(keyId := service.keyId);
      var hash := Sha(body, current.head.hash);
      outcome := database.CommitMutation(body, current.head.hash, Signature(service.keyId, hash), env.commit);
      if !outcome.Done? {
        return;
      }
      var next := database.GetHead(env.rereadable);
      if next.Err? {
        return Refused(next.error);
      }
      if next.value.count != head.value.count + 1 || next.value.sequence <= head.value.sequence
          || next.value.hash != hash {
        return Refused(StateDiverges);
      }
      outcome := Write(next.value, env.at, env.anchor);
    }
  }

  /** The loop over the complete lines of the journal. */
  method ScanLines(lines: seq<Line>, keyring: set<string>) returns (result: Result<Anchor, Reason>)
    requires lines != []
    ensures result == ReadLines(lines, keyring)
  {
    var current := NO_ANCHOR;
    for i := 0 to |lines|
      invariant i > 0 ==> ReadLines(lines[..i], keyring) == Ok(current)
    {
      assert lines[..i + 1][..i] == lines[..i];
      var ok := if i == 0 then Genesis(lines[i], keyring) else Follows(lines[i], current, keyring);
      if !ok {
        ReadStopsAt(lines, keyring, i + 1);
        return Err(AnchorBroken);
      }
      current := lines[i].anchor;
    }
    assert lines[..|lines|] == lines;
    result := Ok(current);
  }

  lemma {:induction false} ReadStopsAt(lines: seq<Line>, keyring: set<string>, n: nat)
    requires 0 < n <= |lines| && ReadLines(lines[..n], keyring) == Err(AnchorBroken)
    ensures ReadLines(lines, keyring) == Err(AnchorBroken)
    decreases |lines|
  {
    if n == |lines| {
      assert lines[..n] == lines;
    } else {
      assert lines[..|lines| - 1][..n] == lines[..n];
      ReadStopsAt(lines[..|lines| - 1], keyring, n);
    }
  }
}
