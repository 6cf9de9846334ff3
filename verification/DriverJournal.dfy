/**
  The crash-safe journal (agent/driver/journal.go): the record discipline, the open map, the
  load-time check, append and compaction.  The functions say what a journal means; the class
  JournalState is the mutable record list with the source's loops.
*/
module DriverJournal {
  import opened Common
  import opened DriverContract

  const MAX_JOURNAL_RECORDS: nat := 4096
  const COMPACTION_THRESHOLD: nat := 1024

  datatype Step =
    | StepNone | StepCapture | StepSimulate | StepApprove | StepReserve | StepApply
    | StepVerify | StepRecord | StepCommit | StepRollback
  {
    /** The order of the constants is the required order of execution. */
    function Rank(): nat {
      match this
      case StepNone => 0
      case StepCapture => 1
      case StepSimulate => 2
      case StepApprove => 3
      case StepReserve => 4
      case StepApply => 5
      case StepVerify => 6
      case StepRecord => 7
      case StepCommit => 8
      case StepRollback => 9
    }

    predicate Terminal() {
      StepCommit? || StepRollback?
    }
  }

  datatype Kind = KindUnknown | KindBegin | KindAdvance | KindFinish

  datatype Record = Record(
    schemaVersion: nat, kind: Kind, ref: PlanRef, step: Step, ownership: Digest, digest: Digest,
    target: string, reservation: ReservationKey, at: nat)

  predicate ValidRecord(record: Record) {
    && record.schemaVersion == CONTRACT_VERSION
    && !record.kind.KindUnknown?
    && ValidRef(record.ref)
    && !record.step.StepNone?
    && (record.kind.KindFinish? <==> record.step.Terminal())
    && (record.ownership != NoDigest ==> ValidToken(record.ownership))
    && (record.digest != NoDigest ==> ValidDigest(record.digest))
    && (record.target != "" ==> ValidTarget(record.target))
    && (record.reservation != NO_KEY ==> ValidKey(record.reservation))
    && record.at != 0
  }

  datatype JournalError = JournalInvalid | JournalFull | JournalActive | JournalInactive | JournalOrder

  // ---------------------------------------------------------------- meaning of a record list

  function Last(records: seq<Record>): Record
    requires records != []
  {
    records[|records| - 1]
  }

  function Init(records: seq<Record>): seq<Record>
    requires records != []
  {
    records[..|records| - 1]
  }

  predicate Keyed(open: map<PlanRef, Record>) {
    forall ref | ref in open :: open[ref].ref == ref
  }

  /** The latest record of every identity that was begun and not finished. */
  function Open(records: seq<Record>): (open: map<PlanRef, Record>)
    ensures Keyed(open)
  {
    if records == [] then map[]
    else
      var open, last := Open(Init(records)), Last(records);
      match last.kind
      case KindUnknown => open
      case KindFinish => open - {last.ref}
      case _ => open[last.ref := last]
  }

  /** Whether the open map admits the record; None means it does. */
  function Objection(open: map<PlanRef, Record>, record: Record): Option<JournalError> {
    match record.kind
    case KindBegin => if record.ref in open then Some(JournalActive) else None
    case KindAdvance =>
      if record.ref !in open then Some(JournalInactive)
      else if record.step.Rank() <= open[record.ref].step.Rank() then Some(JournalOrder)
      else None
    case KindFinish => if record.ref !in open then Some(JournalInactive) else None
    case KindUnknown => None
  }

  /** Every record is valid and was admissible when it was written. */
  predicate Ordered(records: seq<Record>) {
    records != [] ==>
      && Ordered(Init(records))
      && ValidRecord(Last(records))
      && Objection(Open(Init(records)), Last(records)) == None
  }

  /** The load-time check. */
  predicate Check(records: seq<Record>) {
    |records| <= MAX_JOURNAL_RECORDS && Ordered(records)
  }

  /** The records whose identity is not in `dropped`, in their order. */
  function Keep(records: seq<Record>, dropped: set<PlanRef>): (kept: seq<Record>)
    ensures |kept| <= |records|
  {
    if records == [] then []
    else if Last(records).ref in dropped then Keep(Init(records), dropped)
    else Keep(Init(records), dropped) + [Last(records)]
  }

  /** The records of one identity, in their order. */
  function Of(records: seq<Record>, ref: PlanRef): seq<Record> {
    if records == [] then []
    else if Last(records).ref == ref then Of(Init(records), ref) + [Last(records)]
    else Of(Init(records), ref)
  }

  /** Identities without an open entry that occur among the first `n` records. */
  ghost function ClosedWithin(records: seq<Record>, n: nat): set<PlanRef>
    requires n <= |records|
  {
    set i | 0 <= i < n && records[i].ref !in Open(records) :: records[i].ref
  }

  /** The identities the compaction scan has dropped after looking at the first `n` records. */
  function Dropped(records: seq<Record>, n: nat): set<PlanRef>
    requires n <= |records|
  {
    if n == 0 then {}
    else
      var dropped, ref := Dropped(records, n - 1), records[n - 1].ref;
      if |Keep(records, dropped)| <= COMPACTION_THRESHOLD / 2 || ref in Open(records) then dropped
      else dropped + {ref}
  }

  function Compact(records: seq<Record>): seq<Record> {
    if |records| <= COMPACTION_THRESHOLD then records
    else Keep(records, Dropped(records, |records|))
  }

  function Append(records: seq<Record>, record: Record): Result<seq<Record>, JournalError> {
    if !ValidRecord(record) then Err(JournalInvalid)
    else if |records| >= MAX_JOURNAL_RECORDS then Err(JournalFull)
    else
      match Objection(Open(records), record)
      case Some(error) => Err(error)
      case None =>
        if record.kind.KindFinish? then Ok(Compact(records + [record])) else Ok(records + [record])
  }

  // ---------------------------------------------------------------- append agrees with the load-time check

  lemma Snoc(records: seq<Record>, record: Record)
    ensures records + [record] != []
    ensures Init(records + [record]) == records && Last(records + [record]) == record
  {
  }

  /** Append accepts a record exactly when the load-time check accepts the longer sequence. */
  lemma AppendAgreesWithCheck(records: seq<Record>, record: Record)
    requires Check(records)
    ensures Append(records, record).Ok? <==> Check(records + [record])
    ensures Append(records, record).Ok? ==> Check(Append(records, record).value)
    ensures Append(records, record).Ok? ==>
              Open(Append(records, record).value) ==
                if record.kind.KindFinish? then Open(records) - {record.ref} else Open(records)[record.ref := record]
  {
    Snoc(records, record);
    if Append(records, record).Ok? && record.kind.KindFinish? {
      CompactionKeepsOpenEntries(records + [record]);
    }
  }

  // ---------------------------------------------------------------- filtering

  lemma {:induction false} KeepNothingDropped(records: seq<Record>)
    ensures Keep(records, {}) == records
  {
    if records != [] {
      KeepNothingDropped(Init(records));
      assert Init(records) + [Last(records)] == records;
    }
  }

  /** Dropping closed identities changes neither the open map nor the outcome of the check. */
  lemma {:induction false} KeepMeaning(records: seq<Record>, dropped: set<PlanRef>)
    ensures Open(Keep(records, dropped)) == Open(records) - dropped
    ensures Ordered(records) ==> Ordered(Keep(records, dropped))
  {
    if records != [] {
      KeepMeaning(Init(records), dropped);
      if Last(records).ref !in dropped {
        Snoc(Keep(Init(records), dropped), Last(records));
      }
    }
  }

  lemma {:induction false} KeepOf(records: seq<Record>, dropped: set<PlanRef>, ref: PlanRef)
    ensures Of(Keep(records, dropped), ref) == if ref in dropped then [] else Of(records, ref)
  {
    if records != [] {
      KeepOf(Init(records), dropped, ref);
      if Last(records).ref !in dropped {
        Snoc(Keep(Init(records), dropped), Last(records));
      }
    }
  }

  /** Dropping one more identity removes exactly its own records. */
  lemma {:induction false} KeepCount(records: seq<Record>, dropped: set<PlanRef>, ref: PlanRef)
    requires ref !in dropped
    ensures |Keep(records, dropped + {ref})| == |Keep(records, dropped)| - |Of(records, ref)|
  {
    if records != [] {
      KeepCount(Init(records), dropped, ref);
    }
  }

  lemma {:induction false} KeepRefs(records: seq<Record>, dropped: set<PlanRef>, record: Record)
    requires record in Keep(records, dropped)
    ensures record in records && record.ref !in dropped
  {
    if Last(records).ref in dropped || record != Last(records) {
      KeepRefs(Init(records), dropped, record);
    }
  }

  // ---------------------------------------------------------------- compaction

  lemma {:induction false} DroppedAreClosed(records: seq<Record>, n: nat)
    requires n <= |records|
    ensures Dropped(records, n) !! Open(records).Keys
    ensures Dropped(records, n) <= ClosedWithin(records, n)
  {
    if n > 0 {
      DroppedAreClosed(records, n - 1);
    }
  }

  lemma CompactionKeepsOpenEntries(records: seq<Record>)
    ensures |Compact(records)| <= |records|
    ensures Open(Compact(records)) == Open(records)
    ensures Ordered(records) ==> Ordered(Compact(records))
    ensures Check(records) ==> Check(Compact(records))
    ensures forall ref | ref in Open(records) :: Of(Compact(records), ref) == Of(records, ref)
  {
    if |records| > COMPACTION_THRESHOLD {
      var dropped := Dropped(records, |records|);
      DroppedAreClosed(records, |records|);
      KeepMeaning(records, dropped);
      assert Open(records) - dropped == Open(records);
      forall ref | ref in Open(records) ensures Of(Compact(records), ref) == Of(records, ref) {
        KeepOf(records, dropped, ref);
      }
    }
  }

  /** An entry is kept whole or dropped whole. */
  lemma CompactionKeepsWholeEntries(records: seq<Record>, ref: PlanRef)
    ensures Of(Compact(records), ref) == Of(records, ref) || Of(Compact(records), ref) == []
  {
    if |records| > COMPACTION_THRESHOLD {
      KeepOf(records, Dropped(records, |records|), ref);
    }
  }

  /**
    Compaction drops closed entries oldest first and no more of them than it must: what it drops
    are the closed identities of some prefix, every shorter prefix leaves more than half the
    threshold, and it stops early only because the remainder is at most half the threshold.
  */
  lemma {:induction false} DropsOldestFirst(records: seq<Record>, n: nat) returns (p: nat)
    requires n <= |records|
    ensures p <= n && Dropped(records, n) == ClosedWithin(records, p)
    ensures forall m: nat | m < p :: |Keep(records, ClosedWithin(records, m))| > COMPACTION_THRESHOLD / 2
    ensures p == n || |Keep(records, Dropped(records, n))| <= COMPACTION_THRESHOLD / 2
  {
    p := 0;
    if n > 0 {
      p := DropsOldestFirst(records, n - 1);
      var ref := records[n - 1].ref;
      if |Keep(records, Dropped(records, n - 1))| > COMPACTION_THRESHOLD / 2 {
        assert p == n - 1;
        p := n;
        assert ClosedWithin(records, n) ==
               if ref in Open(records) then ClosedWithin(records, n - 1) else ClosedWithin(records, n - 1) + {ref};
      }
    }
  }

  /** Compaction ends with at most half the threshold, or with open entries only. */
  lemma CompactionShrinks(records: seq<Record>)
    ensures
      || |Compact(records)| <= COMPACTION_THRESHOLD / 2
      || (Compact(records) == records && |records| <= COMPACTION_THRESHOLD)
      || forall record | record in Compact(records) :: record.ref in Open(records)
  {
    if |records| > COMPACTION_THRESHOLD && |Compact(records)| > COMPACTION_THRESHOLD / 2 {
      var p := DropsOldestFirst(records, |records|);
      forall record | record in Compact(records) ensures record.ref in Open(records) {
        KeepRefs(records, Dropped(records, |records|), record);
        var i :| 0 <= i < |records| && records[i] == record;
      }
    }
  }

  /** With no open entry, compaction always reaches the threshold. */
  lemma ClosedJournalFits(records: seq<Record>)
    requires Open(records) == map[]
    ensures |Compact(records)| <= COMPACTION_THRESHOLD
  {
    CompactionShrinks(records);
    assert Compact(records) != [] ==> Compact(records)[0] in Compact(records);
  }

  // ---------------------------------------------------------------- in-flight entries in order

  predicate TextLess(a: string, b: string) {
    if b == "" then false
    else if a == "" then true
    else a[0] < b[0] || (a[0] == b[0] && TextLess(a[1..], b[1..]))
  }

  /** The order inFlight sorts by: plan id, then revision, then operation id. */
  predicate RefLess(a: PlanRef, b: PlanRef) {
    if a.planId != b.planId then TextLess(a.planId, b.planId)
    else if a.planRevision != b.planRevision then a.planRevision < b.planRevision
    else TextLess(a.operationId, b.operationId)
  }

  lemma {:induction false} TextLessTotal(a: string, b: string, c: string)
    ensures a != b ==> TextLess(a, b) || TextLess(b, a)
    ensures !(TextLess(a, b) && TextLess(b, a))
    ensures TextLess(a, b) && TextLess(b, c) ==> TextLess(a, c)
    decreases |a| + |b| + |c|
  {
    if a != "" && b != "" {
      if c != "" {
        TextLessTotal(a[1..], b[1..], c[1..]);
      } else {
        TextLessTotal(a[1..], b[1..], c);
      }
      if a[0] == b[0] && a[1..] == b[1..] {
        assert a == [a[0]] + a[1..] == b;
      }
    }
  }

  lemma RefLessTotal(a: PlanRef, b: PlanRef, c: PlanRef)
    ensures a != b ==> RefLess(a, b) || RefLess(b, a)
    ensures !(RefLess(a, b) && RefLess(b, a))
    ensures RefLess(a, b) && RefLess(b, c) ==> RefLess(a, c)
  {
    TextLessTotal(a.planId, b.planId, c.planId);
    TextLessTotal(a.operationId, b.operationId, c.operationId);
  }

  /** `list` holds the values of `open`, each once, in increasing order of identity. */
  ghost predicate Lists(open: map<PlanRef, Record>, list: seq<Record>) {
    && (forall i, j | 0 <= i < j < |list| :: RefLess(list[i].ref, list[j].ref))
    && (forall i | 0 <= i < |list| :: list[i].ref in open && open[list[i].ref] == list[i])
    && (forall ref | ref in open :: open[ref] in list)
  }

  lemma {:induction false} OpenEntriesAreRecords(records: seq<Record>)
    ensures forall ref | ref in Open(records) :: Open(records)[ref] in records
    ensures forall ref | ref in Open(records) ::
        !Open(records)[ref].kind.KindFinish? && !Open(records)[ref].kind.KindUnknown?
    ensures Ordered(records) ==> forall ref | ref in Open(records) :: ValidRecord(Open(records)[ref])
  {
    if records != [] {
      OpenEntriesAreRecords(Init(records));
    }
  }

  /** The least identity of a non-empty set. */
  ghost function Least(refs: set<PlanRef>): (least: PlanRef)
    requires refs != {}
    ensures least in refs && forall ref | ref in refs :: ref == least || RefLess(least, ref)
  {
    var ref :| ref in refs;
    var rest := refs - {ref};
    if rest == {} then assert refs == {ref}; ref
    else
      var least := Least(rest);
      assert refs == rest + {ref};
      assert forall other | other in rest :: RefLess(ref, least) ==> RefLess(ref, other) by {
        forall other | other in rest ensures RefLess(ref, least) ==> RefLess(ref, other) {
          RefLessTotal(ref, least, other);
        }
      }
      assert ref != least ==> RefLess(ref, least) || RefLess(least, ref) by { RefLessTotal(ref, least, ref); }
      if RefLess(ref, least) then ref else least
  }

  /** The in-flight entries of an open map, in the order recovery visits them. */
  ghost function InFlight(open: map<PlanRef, Record>): (list: seq<Record>)
    requires Keyed(open)
    ensures Lists(open, list)
    decreases open.Keys
  {
    if open == map[] then []
    else
      var least := Least(open.Keys);
      var rest := InFlight(open - {least});
      assert forall ref | ref in open :: ref == least || (open - {least})[ref] in rest;
      [open[least]] + rest
  }

  lemma ListsSameHead(open: map<PlanRef, Record>, a: seq<Record>, b: seq<Record>)
    requires Keyed(open) && Lists(open, a) && Lists(open, b)
    ensures a == [] <==> b == []
    ensures a != [] ==> a[0] == b[0]
  {
    assert a != [] ==> open[a[0].ref] in b;
    assert b != [] ==> open[b[0].ref] in a;
    if a != [] {
      var i :| 0 <= i < |a| && a[i] == open[b[0].ref];
      var j :| 0 <= j < |b| && b[j] == open[a[0].ref];
      RefLessTotal(a[0].ref, b[0].ref, a[0].ref);
    }
  }

  /** The sorted list of in-flight entries is determined by the open map. */
  lemma {:induction false} ListsIsUnique(open: map<PlanRef, Record>, a: seq<Record>, b: seq<Record>)
    requires Keyed(open) && Lists(open, a) && Lists(open, b)
    ensures a == b
    decreases |a|
  {
    ListsSameHead(open, a, b);
    if a != [] {
      ListsTail(open, a);
      ListsTail(open, b);
      ListsIsUnique(open - {a[0].ref}, a[1..], b[1..]);
      assert a == [a[0]] + a[1..] && b == [b[0]] + b[1..];
    }
  }

  lemma ListsTail(open: map<PlanRef, Record>, list: seq<Record>)
    requires Keyed(open) && Lists(open, list) && list != []
    ensures Lists(open - {list[0].ref}, list[1..])
  {
    var rest, tail := open - {list[0].ref}, list[1..];
    forall i | 0 <= i < |tail| ensures tail[i].ref in rest && rest[tail[i].ref] == tail[i] {
      assert RefLess(list[0].ref, list[i + 1].ref);
      RefLessTotal(list[0].ref, list[0].ref, list[0].ref);
    }
    forall ref | ref in rest ensures rest[ref] in tail {
      var i :| 0 <= i < |list| && list[i] == open[ref];
      assert tail[i - 1] == list[i];
    }
  }

  lemma {:induction false} OrderedPrefix(records: seq<Record>, n: nat)
    requires n <= |records| && Ordered(records)
    ensures Ordered(records[..n])
  {
    if n == |records| {
      assert records[..n] == records;
    } else {
      OrderedPrefix(Init(records), n);
      assert Init(records)[..n] == records[..n];
    }
  }

  // ---------------------------------------------------------------- the mutable journal

  /** The storage-independent journal discipline shared by the memory and the file journal. */
  class JournalState {
    var records: seq<Record>

    constructor ()
      ensures records == []
    {
      records := [];
    }

    method OpenEntries() returns (open: map<PlanRef, Record>)
      ensures open == Open(records)
    {
      open := map[];
      for i := 0 to |records|
        invariant open == Open(records[..i])
      {
        Snoc(records[..i], records[i]);
        assert records[..i + 1] == records[..i] + [records[i]];
        match records[i].kind {
          case KindBegin => open := open[records[i].ref := records[i]];
          case KindAdvance => open := open[records[i].ref := records[i]];
          case KindFinish => open := open - {records[i].ref};
          case KindUnknown =>
        }
      }
      assert records[..|records|] == records;
    }

    method CheckRecords() returns (ok: bool)
      ensures ok <==> Check(records)
    {
      if |records| > MAX_JOURNAL_RECORDS {
        return false;
      }
      var open: map<PlanRef, Record> := map[];
      for i := 0 to |records|
        invariant open == Open(records[..i]) && Ordered(records[..i])
      {
        var record := records[i];
        Snoc(records[..i], record);
        assert records[..i + 1] == records[..i] + [record];
        if !ValidRecord(record) || Objection(open, record) != None {
          assert !Ordered(records) by {
            if Ordered(records) { OrderedPrefix(records, i + 1); }
          }
          return false;
        }
        if record.kind.KindFinish? {
          open := open - {record.ref};
        } else {
          open := open[record.ref := record];
        }
      }
      assert records[..|records|] == records;
      ok := true;
    }

    method AppendRecord(record: Record) returns (reply: Result<(), JournalError>)
      modifies this
      ensures reply.Ok? <==> Append(old(records), record).Ok?
      ensures reply.Ok? ==> records == Append(old(records), record).value
      ensures reply.Err? ==> records == old(records) && reply.error == Append(old(records), record).error
    {
      if !ValidRecord(record) {
        return Err(JournalInvalid);
      }
      if |records| >= MAX_JOURNAL_RECORDS {
        return Err(JournalFull);
      }
      var open := OpenEntries();
      match Objection(open, record) {
        case Some(error) => return Err(error);
        case None =>
      }
      records := records + [record];
      if record.kind.KindFinish? {
        CompactRecords();
      }
      reply := Ok(());
    }

    /** Keeps a running counter of the remaining records; the counter is always exact. */
    method CompactRecords()
      modifies this
      ensures records == Compact(old(records))
    {
      if |records| <= COMPACTION_THRESHOLD {
        return;
      }
      var open := OpenEntries();
      var counts := CountRecords();
      var dropped, remaining := ChooseDropped(records, open, counts);
      if dropped == {} {
        KeepNothingDropped(records);
        return;
      }
      var kept := KeepRecords(records, dropped);
      assert |kept| == remaining;
      records := kept;
    }

    method CountRecords() returns (counts: map<PlanRef, nat>)
      ensures forall i | 0 <= i < |records| :: records[i].ref in counts
      ensures forall ref | ref in counts :: counts[ref] == |Of(records, ref)|
    {
      counts := map[];
      for i := 0 to |records|
        invariant forall k | 0 <= k < i :: records[k].ref in counts
        invariant forall ref ::
                    if ref in counts then counts[ref] == |Of(records[..i], ref)| else Of(records[..i], ref) == []
      {
        Snoc(records[..i], records[i]);
        assert records[..i + 1] == records[..i] + [records[i]];
        var ref := records[i].ref;
        counts := counts[ref := (if ref in counts then counts[ref] else 0) + 1];
      }
      assert records[..|records|] == records;
    }

    /** Collects the open entries in arbitrary order and sorts them by insertion. */
    method InFlightEntries() returns (list: seq<Record>)
      ensures list == InFlight(Open(records))
    {
      var open := OpenEntries();
      list := [];
      var pending := open;
      ghost var done: map<PlanRef, Record> := map[];
      while pending != map[]
        invariant done.Keys !! pending.Keys && done + pending == open
        invariant Lists(done, list)
        decreases pending.Keys
      {
        var ref :| ref in pending;
        list := InsertEntry(list, pending[ref], done);
        done := done[ref := pending[ref]];
        pending := pending - {ref};
      }
      assert done == open;
      ListsIsUnique(open, list, InFlight(open));
    }
  }

  method ChooseDropped(records: seq<Record>, open: map<PlanRef, Record>, counts: map<PlanRef, nat>)
    returns (dropped: set<PlanRef>, remaining: int)
    requires open == Open(records)
    requires forall i | 0 <= i < |records| ::
        records[i].ref in counts && counts[records[i].ref] == |Of(records, records[i].ref)|
    ensures dropped == Dropped(records, |records|)
    ensures remaining == |Keep(records, dropped)|
  {
    remaining := |records|;
    dropped := {};
    KeepNothingDropped(records);
    var i := 0;
    while i < |records| && remaining > COMPACTION_THRESHOLD / 2
      invariant i <= |records|
      invariant dropped == Dropped(records, i)
      invariant remaining == |Keep(records, dropped)|
    {
      var ref := records[i].ref;
      if ref !in open && ref !in dropped {
        KeepCount(records, dropped, ref);
        dropped := dropped + {ref};
        remaining := remaining - counts[ref];
      } else {
        assert ref in dropped ==> dropped + {ref} == dropped;
      }
      i := i + 1;
    }
    DroppedSettles(records, i, |records|);
  }

  method KeepRecords(records: seq<Record>, dropped: set<PlanRef>) returns (kept: seq<Record>)
    ensures kept == Keep(records, dropped)
  {
    kept := [];
    for i := 0 to |records|
      invariant kept == Keep(records[..i], dropped)
    {
      Snoc(records[..i], records[i]);
      assert records[..i + 1] == records[..i] + [records[i]];
      if records[i].ref !in dropped {
        kept := kept + [records[i]];
      }
    }
    assert records[..|records|] == records;
  }

  lemma InsertedLists(list: seq<Record>, k: nat, entry: Record, done: map<PlanRef, Record>)
    requires Keyed(done) && Lists(done, list) && entry.ref !in done && k <= |list|
    requires forall i | 0 <= i < k :: RefLess(list[i].ref, entry.ref)
    requires forall i | k <= i < |list| :: RefLess(entry.ref, list[i].ref)
    ensures Lists(done[entry.ref := entry], list[..k] + [entry] + list[k..])
  {
    hide RefLess;
    var longer := list[..k] + [entry] + list[k..];
    forall ref | ref in done ensures done[ref] in longer {
      var i :| 0 <= i < |list| && list[i] == done[ref];
      assert longer[if i < k then i else i + 1] == list[i];
    }
    assert longer[k] == entry;
  }

  method InsertEntry(list: seq<Record>, entry: Record, ghost done: map<PlanRef, Record>) returns (longer: seq<Record>)
    requires Keyed(done) && Lists(done, list) && entry.ref !in done
    ensures Lists(done[entry.ref := entry], longer)
  {
    var k := 0;
    while k < |list| && RefLess(list[k].ref, entry.ref)
      invariant k <= |list|
      invariant forall i | 0 <= i < k :: RefLess(list[i].ref, entry.ref)
    {
      k := k + 1;
    }
    forall i | k <= i < |list| ensures RefLess(entry.ref, list[i].ref) {
      hide RefLess;
      RefLessTotal(list[k].ref, entry.ref, entry.ref);
      RefLessTotal(entry.ref, list[k].ref, list[i].ref);
    }
    InsertedLists(list, k, entry, done);
    longer := list[..k] + [entry] + list[k..];
  }

  lemma {:induction false} DroppedSettles(records: seq<Record>, n: nat, m: nat)
    requires n <= m <= |records|
    requires n == |records| || |Keep(records, Dropped(records, n))| <= COMPACTION_THRESHOLD / 2
    ensures Dropped(records, m) == Dropped(records, n)
    decreases m
  {
    if n < m {
      DroppedSettles(records, n, m - 1);
    }
  }
}
