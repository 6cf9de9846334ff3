/**
  What the digests of probe results and capability manifests identify (agent/driver/probe.go:203-256,
  agent/capability/manifest.go:150-261, agent/driver/contract.go:911-925): exactly the content, up to
  the order of the unordered lists.  The results hold for all lengths and numbers within the layout's
  limits, which every validated probe and manifest respects.
*/
module CapabilityDigest {
  import opened DigestLayout

  // ---------------------------------------------------------------- orders

  predicate LexLe(a: Bytes, b: Bytes) {
    a == [] || (b != [] && (a[0] < b[0] || (a[0] == b[0] && LexLe(a[1..], b[1..]))))
  }

  predicate NatLe(a: nat, b: nat) {
    a <= b
  }

  lemma {:induction false} LexTotal(a: Bytes, b: Bytes)
    ensures LexLe(a, b) || LexLe(b, a)
    ensures LexLe(a, b) && LexLe(b, a) ==> a == b
    decreases |a|
  {
    if a != [] && b != [] {
      LexTotal(a[1..], b[1..]);
      assert a == [a[0]] + a[1..] && b == [b[0]] + b[1..];
    }
  }

  lemma {:induction false} LexTransitive(a: Bytes, b: Bytes, c: Bytes)
    requires LexLe(a, b) && LexLe(b, c)
    ensures LexLe(a, c)
    decreases |a|
  {
    if a != [] && a[0] == b[0] == c[0] {
      LexTransitive(a[1..], b[1..], c[1..]);
    }
  }

  lemma LexOrder()
    ensures TotalOrder(LexLe)
  {
    forall a, b
      ensures (LexLe(a, b) || LexLe(b, a)) && (LexLe(a, b) && LexLe(b, a) ==> a == b)
    {
      LexTotal(a, b);
    }
    forall a, b, c | LexLe(a, b) && LexLe(b, c)
      ensures LexLe(a, c)
    {
      LexTransitive(a, b, c);
    }
  }

  lemma NatOrder()
    ensures TotalOrder(NatLe)
  {
  }

  // ---------------------------------------------------------------- probes

  datatype Time = Time(seconds: int, nanos: nat)

  datatype Probe = Probe(
    schema: nat, key: Bytes, domain: nat, operations: seq<nat>, level: nat, name: Bytes, version: Bytes,
    health: nat, ready: bool, codes: seq<Bytes>, constraints: seq<Bytes>, probedAt: Time, expiresAt: Time)

  predicate IsWord(value: nat) {
    value < WORD_LIMIT
  }

  predicate IsTime(time: Time) {
    -(WORD_LIMIT / 2) <= time.seconds < WORD_LIMIT / 2 && IsWord(time.nanos)
  }

  predicate IsText(text: Bytes) {
    |text| < LENGTH_LIMIT
  }

  predicate Bounded(probe: Probe) {
    && IsWord(probe.schema) && IsWord(probe.domain) && IsWord(probe.level) && IsWord(probe.health)
    && IsText(probe.key) && IsText(probe.name) && IsText(probe.version) && IsTime(probe.probedAt)
        && IsTime(probe.expiresAt)
    && |probe.operations| < WORD_LIMIT && |probe.codes| < WORD_LIMIT && |probe.constraints| < WORD_LIMIT
    && (forall i | 0 <= i < |probe.operations| :: IsWord(probe.operations[i])) && Short(probe.codes)
        && Short(probe.constraints)
  }

  function Words(values: seq<nat>): (words: seq<Bytes>)
    ensures |words| == |values|
  {
    seq(|values|, i requires 0 <= i < |values| => Word(values[i]))
  }

  function TimeFields(time: Time): seq<Bytes> {
    [Word(time.seconds), Word(time.nanos)]
  }

  /** The four stretches of the layout between the counted lists. */
  function HeadFields(tag: Bytes, probe: Probe): seq<Bytes> {
    [tag, Word(probe.schema), probe.key, Word(probe.domain)]
  }

  function MiddleFields(probe: Probe): seq<Bytes> {
    [Word(probe.level), probe.name, probe.version, Word(probe.health), Word(if probe.ready then 1 else 0)]
  }

  function ProbeFields(tag: Bytes, probe: Probe): seq<Bytes> {
    HeadFields(tag, probe) + (Group(Words(Sort(probe.operations, NatLe))) + (MiddleFields(probe)
      + (Group(Sort(probe.codes, LexLe)) + (Group(Sort(probe.constraints, LexLe))
      + (TimeFields(probe.probedAt) + TimeFields(probe.expiresAt))))))
  }

  /** Equal in every field, operations, reason codes and constraints up to order. */
  predicate SameProbe(a: Probe, b: Probe) {
    && a.schema == b.schema && a.key == b.key && a.domain == b.domain && a.level == b.level
    && a.name == b.name && a.version == b.version && a.health == b.health && a.ready == b.ready
    && a.probedAt == b.probedAt && a.expiresAt == b.expiresAt
    && multiset(a.operations) == multiset(b.operations)
    && multiset(a.codes) == multiset(b.codes) && multiset(a.constraints) == multiset(b.constraints)
  }

  lemma SortKeeps<T(!new)>(items: seq<T>, le: (T, T) -> bool, p: T -> bool)
    requires TotalOrder(le) && forall i | 0 <= i < |items| :: p(items[i])
    ensures forall i | 0 <= i < |items| :: p(Sort(items, le)[i])
  {
    SortSorts(items, le);
    var sorted := Sort(items, le);
    forall i | 0 <= i < |items|
      ensures p(sorted[i])
    {
      assert sorted[i] in multiset(sorted);
      assert sorted[i] in items;
    }
  }

  lemma ProbeFieldsShort(tag: Bytes, probe: Probe)
    requires Bounded(probe) && IsText(tag)
    ensures Short(ProbeFields(tag, probe))
  {
    hide Sort, Words, Word, LexLe;
    LexOrder();
    SortKeeps(probe.codes, LexLe, IsText);
    SortKeeps(probe.constraints, LexLe, IsText);
    var times := TimeFields(probe.probedAt) + TimeFields(probe.expiresAt);
    var constraints, codes := Group(Sort(probe.constraints, LexLe)), Group(Sort(probe.codes, LexLe));
    var operations := Group(Words(Sort(probe.operations, NatLe)));
    WordsShort(Sort(probe.operations, NatLe));
    ShortConcat(constraints, times);
    ShortConcat(codes, constraints + times);
    ShortConcat(MiddleFields(probe), codes + (constraints + times));
    ShortConcat(operations, MiddleFields(probe) + (codes + (constraints + times)));
    ShortConcat(HeadFields(tag, probe), operations + (MiddleFields(probe) + (codes + (constraints + times))));
  }

  lemma ShortConcat(a: seq<Bytes>, b: seq<Bytes>)
    requires Short(a) && Short(b)
    ensures Short(a + b)
  {
  }

  lemma WordsShort(values: seq<nat>)
    ensures Short(Words(values)) && Short(Group(Words(values)))
  {
    hide Word;
  }

  lemma SortedWords(a: seq<nat>, b: seq<nat>)
    requires forall i | 0 <= i < |a| :: IsWord(a[i])
    requires forall i | 0 <= i < |b| :: IsWord(b[i])
    ensures Words(Sort(a, NatLe)) == Words(Sort(b, NatLe)) <==> multiset(a) == multiset(b)
  {
    NatOrder();
    SortForgetsOrder(a, b, NatLe);
    SortKeeps(a, NatLe, IsWord);
    SortKeeps(b, NatLe, IsWord);
    var x, y := Sort(a, NatLe), Sort(b, NatLe);
    if Words(x) == Words(y) {
      forall i | 0 <= i < |x|
        ensures x[i] == y[i]
      {
        assert Words(x)[i] == Words(y)[i];
        WordInjective(x[i], y[i]);
      }
    }
  }

  lemma HeadInjective(tag: Bytes, a: Probe, b: Probe, x: seq<Bytes>, y: seq<Bytes>)
    requires Bounded(a) && Bounded(b) && HeadFields(tag, a) + x == HeadFields(tag, b) + y
    ensures a.schema == b.schema && a.key == b.key && a.domain == b.domain && x == y
  {
    hide Word;
    var left, right := HeadFields(tag, a) + x, HeadFields(tag, b) + y;
    assert left[1] == right[1] && left[2] == right[2] && left[3] == right[3];
    WordInjective(a.schema, b.schema);
    WordInjective(a.domain, b.domain);
    assert left[4..] == x && right[4..] == y;
  }

  lemma MiddleInjective(a: Probe, b: Probe, x: seq<Bytes>, y: seq<Bytes>)
    requires Bounded(a) && Bounded(b) && MiddleFields(a) + x == MiddleFields(b) + y
    ensures a.level == b.level && a.name == b.name && a.version == b.version && a.health == b.health
        && a.ready == b.ready && x == y
  {
    hide Word;
    var left, right := MiddleFields(a) + x, MiddleFields(b) + y;
    assert left[0] == right[0] && left[1] == right[1] && left[2] == right[2] && left[3] == right[3]
        && left[4] == right[4];
    WordInjective(a.level, b.level);
    WordInjective(a.health, b.health);
    WordInjective(if a.ready then 1 else 0, if b.ready then 1 else 0);
    assert left[5..] == x && right[5..] == y;
  }

  lemma TimesInjective(a: Time, b: Time, x: seq<Bytes>, y: seq<Bytes>)
    requires IsTime(a) && IsTime(b) && TimeFields(a) + x == TimeFields(b) + y
    ensures a == b && x == y
  {
    hide Word;
    var left, right := TimeFields(a) + x, TimeFields(b) + y;
    assert left[0] == right[0] && left[1] == right[1];
    WordInjective(a.seconds, b.seconds);
    WordInjective(a.nanos, b.nanos);
    assert left[2..] == x && right[2..] == y;
  }

  lemma EqualFieldsSameProbe(tag: Bytes, a: Probe, b: Probe)
    requires Bounded(a) && Bounded(b) && ProbeFields(tag, a) == ProbeFields(tag, b)
    ensures SameProbe(a, b)
  {
    hide Group, Words, Sort, HeadFields, MiddleFields, TimeFields;
    LexOrder();
    var timesA, timesB := TimeFields(a.probedAt) + TimeFields(a.expiresAt), TimeFields(b.probedAt)
        + TimeFields(b.expiresAt);
    var consA, consB := Group(Sort(a.constraints, LexLe)) + timesA, Group(Sort(b.constraints, LexLe)) + timesB;
    var codesA, codesB := Group(Sort(a.codes, LexLe)) + consA, Group(Sort(b.codes, LexLe)) + consB;
    var midA, midB := MiddleFields(a) + codesA, MiddleFields(b) + codesB;
    var opsA, opsB := Group(Words(Sort(a.operations, NatLe))) + midA, Group(Words(Sort(b.operations, NatLe))) + midB;
    HeadInjective(tag, a, b, opsA, opsB);
    GroupIsPrefixFree(Words(Sort(a.operations, NatLe)), Words(Sort(b.operations, NatLe)), midA, midB);
    MiddleInjective(a, b, codesA, codesB);
    GroupIsPrefixFree(Sort(a.codes, LexLe), Sort(b.codes, LexLe), consA, consB);
    GroupIsPrefixFree(Sort(a.constraints, LexLe), Sort(b.constraints, LexLe), timesA, timesB);
    TimesInjective(a.probedAt, b.probedAt, TimeFields(a.expiresAt), TimeFields(b.expiresAt));
    assert TimeFields(a.expiresAt) + [] == TimeFields(b.expiresAt) + [];
    TimesInjective(a.expiresAt, b.expiresAt, [], []);
    SortedWords(a.operations, b.operations);
    SortForgetsOrder(a.codes, b.codes, LexLe);
    SortForgetsOrder(a.constraints, b.constraints, LexLe);
  }

  lemma SameProbeEqualFields(tag: Bytes, a: Probe, b: Probe)
    requires Bounded(a) && Bounded(b) && SameProbe(a, b)
    ensures ProbeFields(tag, a) == ProbeFields(tag, b)
  {
    hide Group, Words, Sort;
    LexOrder();
    SortedWords(a.operations, b.operations);
    SortForgetsOrder(a.codes, b.codes, LexLe);
    SortForgetsOrder(a.constraints, b.constraints, LexLe);
  }

  /** Two probe results have the same digest input exactly when they agree up to the order of their lists. */
  lemma ProbeDigestIdentifies(tag: Bytes, a: Probe, b: Probe)
    requires Bounded(a) && Bounded(b) && IsText(tag)
    ensures Layout(ProbeFields(tag, a)) == Layout(ProbeFields(tag, b)) <==> SameProbe(a, b)
  {
    hide ProbeFields, SameProbe, Layout;
    ProbeFieldsShort(tag, a);
    ProbeFieldsShort(tag, b);
    if Layout(ProbeFields(tag, a)) == Layout(ProbeFields(tag, b)) {
      LayoutInjective(ProbeFields(tag, a), ProbeFields(tag, b));
      EqualFieldsSameProbe(tag, a, b);
    }
    if SameProbe(a, b) {
      SameProbeEqualFields(tag, a, b);
    }
  }

  // ---------------------------------------------------------------- ownership tokens

  function OwnershipFields(tag: Bytes, planId: Bytes, planRevision: nat, operationId: Bytes, target: Bytes,
                           token: Bytes): seq<Bytes> {
    [tag, planId, Word(planRevision), operationId, target, token]
  }

  /**
    The ownership token's input fixes the plan, revision, operation, target and reservation token,
    and the domain tag.
  */
  lemma OwnershipInputInjective(tag: Bytes, planId: Bytes, planRevision: nat, operationId: Bytes, target: Bytes,
                                token: Bytes,
                                tag': Bytes, planId': Bytes, planRevision': nat, operationId': Bytes, target': Bytes,
                                token': Bytes)
    requires IsText(tag) && IsText(planId) && IsWord(planRevision) && IsText(operationId) && IsText(target)
        && IsText(token)
    requires IsText(tag') && IsText(planId') && IsWord(planRevision') && IsText(operationId') && IsText(target')
        && IsText(token')
    requires Layout(OwnershipFields(tag, planId, planRevision, operationId, target, token))
          == Layout(OwnershipFields(tag', planId', planRevision', operationId', target', token'))
    ensures (tag, planId, planRevision, operationId, target, token)
        == (tag', planId', planRevision', operationId', target', token')
  {
    hide Layout, Word;
    var left := OwnershipFields(tag, planId, planRevision, operationId, target, token);
    var right := OwnershipFields(tag', planId', planRevision', operationId', target', token');
    LayoutInjective(left, right);
    assert left[0] == right[0] && left[1] == right[1] && left[2] == right[2] && left[3] == right[3]
        && left[4] == right[4] && left[5] == right[5];
    WordInjective(planRevision, planRevision');
  }

  // ---------------------------------------------------------------- manifests

  /** Each entry is a probe; the digest it carries is, by validation, the digest of its own content. */
  datatype Manifest = Manifest(
    schema: nat, node: Bytes, revision: nat, issuedAt: Time, expiresAt: Time, policyKey: Bytes, attestation: Bytes,
    entries: seq<Probe>)

  datatype Tags = Tags(manifest: Bytes, probe: Bytes)

  predicate BoundedManifest(manifest: Manifest) {
    && IsWord(manifest.schema) && IsText(manifest.node) && IsWord(manifest.revision) && IsTime(manifest.issuedAt)
        && IsTime(manifest.expiresAt)
    && IsText(manifest.policyKey) && IsText(manifest.attestation) && |manifest.entries| < WORD_LIMIT
    && (forall i | 0 <= i < |manifest.entries| :: Bounded(manifest.entries[i]))
  }

  /** Validate refuses a manifest that names a capability twice. */
  predicate DistinctKeys(entries: seq<Probe>) {
    forall i, j | 0 <= i < j < |entries| :: entries[i].key != entries[j].key
  }

  function ProbeInput(tags: Tags, probe: Probe): Bytes {
    Layout(ProbeFields(tags.probe, probe))
  }

  /** The hash tells apart the two probes, if their digest inputs differ. */
  predicate Separates(tags: Tags, a: Probe, b: Probe, hash: Bytes -> Bytes) {
    hash(ProbeInput(tags, a)) == hash(ProbeInput(tags, b)) ==> ProbeInput(tags, a) == ProbeInput(tags, b)
  }

  /** No entry of one manifest collides with an entry of the other. */
  predicate CollisionFree(tags: Tags, a: seq<Probe>, b: seq<Probe>, hash: Bytes -> Bytes) {
    forall i, j | 0 <= i < |a| && 0 <= j < |b| :: Separates(tags, a[i], b[j], hash)
  }

  predicate ShortDigests(tags: Tags, entries: seq<Probe>, hash: Bytes -> Bytes) {
    forall i | 0 <= i < |entries| :: IsText(hash(ProbeInput(tags, entries[i])))
  }

  datatype Pair = Pair(key: Bytes, digest: Bytes)

  /** By key, as the manifest sorts; the digest decides nothing among distinct keys. */
  predicate PairLe(a: Pair, b: Pair) {
    if a.key == b.key then LexLe(a.digest, b.digest) else LexLe(a.key, b.key)
  }

  lemma PairOrder()
    ensures TotalOrder(PairLe)
  {
    hide LexLe;
    LexOrder();
    forall a, b, c | PairLe(a, b) && PairLe(b, c)
      ensures PairLe(a, c)
    {
      LexTotal(a.key, b.key);
    }
  }

  function PairOf(tags: Tags, probe: Probe, hash: Bytes -> Bytes): Pair {
    Pair(probe.key, hash(ProbeInput(tags, probe)))
  }

  function Pairs(tags: Tags, entries: seq<Probe>, hash: Bytes -> Bytes): (pairs: seq<Pair>)
    ensures |pairs| == |entries|
  {
    seq(|entries|, i requires 0 <= i < |entries| => PairOf(tags, entries[i], hash))
  }

  function Flat(pairs: seq<Pair>): (fields: seq<Bytes>)
    ensures |fields| == 2 * |pairs|
  {
    if pairs == [] then [] else [pairs[0].key, pairs[0].digest] + Flat(pairs[1..])
  }

  function HeaderFields(tags: Tags, manifest: Manifest): seq<Bytes> {
    [tags.manifest, Word(manifest.schema), manifest.node, Word(manifest.revision),
     Word(manifest.issuedAt.seconds), Word(manifest.issuedAt.nanos), Word(manifest.expiresAt.seconds),
     Word(manifest.expiresAt.nanos),
     manifest.policyKey, manifest.attestation, Word(|manifest.entries|)]
  }

  function ManifestFields(tags: Tags, manifest: Manifest, hash: Bytes -> Bytes): seq<Bytes> {
    HeaderFields(tags, manifest) + Flat(Sort(Pairs(tags, manifest.entries, hash), PairLe))
  }

  predicate SameHeader(a: Manifest, b: Manifest) {
    && a.schema == b.schema && a.node == b.node && a.revision == b.revision && a.issuedAt == b.issuedAt
        && a.expiresAt == b.expiresAt
    && a.policyKey == b.policyKey && a.attestation == b.attestation
  }

  ghost predicate Among(probe: Probe, entries: seq<Probe>) {
    exists j :: 0 <= j < |entries| && SameProbe(probe, entries[j])
  }

  ghost predicate Covers(a: seq<Probe>, b: seq<Probe>) {
    forall i | 0 <= i < |a| :: Among(a[i], b)
  }

  lemma {:induction false} FlatInjective(a: seq<Pair>, b: seq<Pair>)
    requires Flat(a) == Flat(b)
    ensures a == b
    decreases |a|
  {
    if a != [] && b != [] {
      var left, right := Flat(a), Flat(b);
      assert left[0] == right[0] && left[1] == right[1];
      assert left[2..] == Flat(a[1..]) && right[2..] == Flat(b[1..]);
      FlatInjective(a[1..], b[1..]);
      assert a == [a[0]] + a[1..] && b == [b[0]] + b[1..];
    }
  }

  lemma HeaderInjective(tags: Tags, a: Manifest, b: Manifest, x: seq<Bytes>, y: seq<Bytes>)
    requires BoundedManifest(a) && BoundedManifest(b) && HeaderFields(tags, a) + x == HeaderFields(tags, b) + y
    ensures SameHeader(a, b) && |a.entries| == |b.entries| && x == y
  {
    hide Word, Bounded;
    var left, right := HeaderFields(tags, a) + x, HeaderFields(tags, b) + y;
    assert forall i | 0 <= i < 11 ::
        left[i] == right[i] && left[i] == HeaderFields(tags, a)[i] && right[i] == HeaderFields(tags, b)[i];
    assert left[1] == right[1] && left[2] == right[2] && left[3] == right[3] && left[4] == right[4]
        && left[5] == right[5];
    assert left[6] == right[6] && left[7] == right[7] && left[8] == right[8] && left[9] == right[9]
        && left[10] == right[10];
    WordInjective(a.schema, b.schema);
    WordInjective(a.revision, b.revision);
    WordInjective(a.issuedAt.seconds, b.issuedAt.seconds);
    WordInjective(a.issuedAt.nanos, b.issuedAt.nanos);
    WordInjective(a.expiresAt.seconds, b.expiresAt.seconds);
    WordInjective(a.expiresAt.nanos, b.expiresAt.nanos);
    WordInjective(|a.entries|, |b.entries|);
    assert left[11..] == x && right[11..] == y;
  }

  lemma PairsAgree(tags: Tags, a: Probe, b: Probe, hash: Bytes -> Bytes)
    requires Bounded(a) && Bounded(b) && IsText(tags.probe) && Separates(tags, a, b, hash)
    ensures PairOf(tags, a, hash) == PairOf(tags, b, hash) <==> SameProbe(a, b)
  {
    hide ProbeFields, Layout, Bounded;
    ProbeDigestIdentifies(tags.probe, a, b);
  }

  lemma CollisionSwaps(tags: Tags, a: seq<Probe>, b: seq<Probe>, hash: Bytes -> Bytes)
    requires CollisionFree(tags, a, b, hash)
    ensures CollisionFree(tags, b, a, hash)
  {
    hide ProbeInput;
    forall j, i | 0 <= j < |b| && 0 <= i < |a|
      ensures Separates(tags, b[j], a[i], hash)
    {
      assert Separates(tags, a[i], b[j], hash);
    }
  }

  /** Equal multisets of pairs: every entry of one manifest is an entry of the other. */
  lemma EqualPairsCover(tags: Tags, a: seq<Probe>, b: seq<Probe>, hash: Bytes -> Bytes)
    requires IsText(tags.probe) && CollisionFree(tags, a, b, hash)
    requires (forall i | 0 <= i < |a| :: Bounded(a[i])) && (forall i | 0 <= i < |b| :: Bounded(b[i]))
    requires multiset(Pairs(tags, a, hash)) == multiset(Pairs(tags, b, hash))
    ensures Covers(a, b)
  {
    hide PairOf, SameProbe, Bounded, Separates;
    forall i | 0 <= i < |a|
      ensures Among(a[i], b)
    {
      var pair := Pairs(tags, a, hash)[i];
      assert pair in multiset(Pairs(tags, b, hash));
      var j :| 0 <= j < |b| && Pairs(tags, b, hash)[j] == pair;
      PairsAgree(tags, a[i], b[j], hash);
    }
  }

  lemma CoverEqualPairs(tags: Tags, a: seq<Probe>, b: seq<Probe>, hash: Bytes -> Bytes)
    requires IsText(tags.probe) && CollisionFree(tags, a, b, hash) && CollisionFree(tags, b, a, hash) && DistinctKeys(a)
        && DistinctKeys(b)
    requires (forall i | 0 <= i < |a| :: Bounded(a[i])) && (forall i | 0 <= i < |b| :: Bounded(b[i]))
    requires Covers(a, b) && Covers(b, a)
    ensures multiset(Pairs(tags, a, hash)) == multiset(Pairs(tags, b, hash))
  {
    hide Bounded, Separates;
    PairsWithin(tags, a, b, hash);
    PairsWithin(tags, b, a, hash);
    PairsDistinct(tags, a, hash);
    PairsDistinct(tags, b, hash);
    SameElements(Pairs(tags, a, hash), Pairs(tags, b, hash));
  }

  lemma PairsWithin(tags: Tags, a: seq<Probe>, b: seq<Probe>, hash: Bytes -> Bytes)
    requires IsText(tags.probe) && CollisionFree(tags, a, b, hash) && Covers(a, b)
    requires (forall i | 0 <= i < |a| :: Bounded(a[i])) && (forall i | 0 <= i < |b| :: Bounded(b[i]))
    ensures forall pair | pair in Pairs(tags, a, hash) :: pair in Pairs(tags, b, hash)
  {
    hide PairOf, SameProbe, Bounded, Separates;
    forall pair | pair in Pairs(tags, a, hash)
      ensures pair in Pairs(tags, b, hash)
    {
      var i :| 0 <= i < |a| && Pairs(tags, a, hash)[i] == pair;
      assert Among(a[i], b);
      var j :| 0 <= j < |b| && SameProbe(a[i], b[j]);
      PairsAgree(tags, a[i], b[j], hash);
      assert Pairs(tags, b, hash)[j] == pair;
    }
  }

  predicate Distinct<T(==)>(items: seq<T>) {
    forall i, j | 0 <= i < j < |items| :: items[i] != items[j]
  }

  lemma PairsDistinct(tags: Tags, entries: seq<Probe>, hash: Bytes -> Bytes)
    requires DistinctKeys(entries)
    ensures Distinct(Pairs(tags, entries, hash))
  {
    var pairs := Pairs(tags, entries, hash);
    forall i, j | 0 <= i < j < |pairs|
      ensures pairs[i] != pairs[j]
    {
      assert pairs[i].key == entries[i].key && pairs[j].key == entries[j].key;
    }
  }

  lemma {:induction false} OnceAtMost<T>(items: seq<T>, item: T)
    requires Distinct(items)
    ensures multiset(items)[item] == if item in items then 1 else 0
    decreases |items|
  {
    if items != [] {
      var rest := items[1..];
      assert items == [items[0]] + rest;
      assert Distinct(rest) by {
        forall i, j | 0 <= i < j < |rest|
          ensures rest[i] != rest[j]
        {
          assert items[i + 1] != items[j + 1];
        }
      }
      OnceAtMost(rest, item);
      assert forall k | 0 <= k < |rest| :: items[0] != items[k + 1] && items[k + 1] == rest[k];
    }
  }

  lemma SameElements<T>(a: seq<T>, b: seq<T>)
    requires Distinct(a) && Distinct(b)
    requires (forall item | item in a :: item in b) && (forall item | item in b :: item in a)
    ensures multiset(a) == multiset(b)
  {
    forall item: T
      ensures multiset(a)[item] == multiset(b)[item]
    {
      OnceAtMost(a, item);
      OnceAtMost(b, item);
    }
  }

  lemma ManifestFieldsShort(tags: Tags, manifest: Manifest, hash: Bytes -> Bytes)
    requires BoundedManifest(manifest) && IsText(tags.manifest) && ShortDigests(tags, manifest.entries, hash)
    ensures Short(ManifestFields(tags, manifest, hash))
  {
    hide Word, Sort, PairLe;
    PairOrder();
    var pairs := Pairs(tags, manifest.entries, hash);
    assert forall i | 0 <= i < |pairs| :: ShortPair(pairs[i]);
    SortKeeps(pairs, PairLe, ShortPair);
    FlatShort(Sort(pairs, PairLe));
    ShortConcat(HeaderFields(tags, manifest), Flat(Sort(pairs, PairLe)));
  }

  predicate ShortPair(pair: Pair) {
    IsText(pair.key) && IsText(pair.digest)
  }

  lemma {:induction false} FlatShort(pairs: seq<Pair>)
    requires forall i | 0 <= i < |pairs| :: ShortPair(pairs[i])
    ensures Short(Flat(pairs))
    decreases |pairs|
  {
    if pairs != [] {
      FlatShort(pairs[1..]);
      assert ShortPair(pairs[0]);
      ShortConcat([pairs[0].key, pairs[0].digest], Flat(pairs[1..]));
    }
  }

  /**
    Two manifests have the same digest input exactly when their headers agree and their entries are
    the same in any order, each up to the order of its own lists.
  */
  lemma ManifestDigestIdentifies(tags: Tags, a: Manifest, b: Manifest, hash: Bytes -> Bytes)
    requires BoundedManifest(a) && BoundedManifest(b) && DistinctKeys(a.entries) && DistinctKeys(b.entries)
    requires IsText(tags.manifest) && IsText(tags.probe) && CollisionFree(tags, a.entries, b.entries, hash)
    requires ShortDigests(tags, a.entries, hash) && ShortDigests(tags, b.entries, hash)
    ensures Layout(ManifestFields(tags, a, hash)) == Layout(ManifestFields(tags, b, hash)) <==>
              SameHeader(a, b) && Covers(a.entries, b.entries) && Covers(b.entries, a.entries)
  {
    hide Layout, HeaderFields, Sort, Flat, Covers, Pairs, Bounded, DistinctKeys, CollisionFree, ShortDigests, PairLe;
    PairOrder();
    CollisionSwaps(tags, a.entries, b.entries, hash);
    var x, y := Pairs(tags, a.entries, hash), Pairs(tags, b.entries, hash);
    ManifestFieldsShort(tags, a, hash);
    ManifestFieldsShort(tags, b, hash);
    SortForgetsOrder(x, y, PairLe);
    if Layout(ManifestFields(tags, a, hash)) == Layout(ManifestFields(tags, b, hash)) {
      LayoutInjective(ManifestFields(tags, a, hash), ManifestFields(tags, b, hash));
      HeaderInjective(tags, a, b, Flat(Sort(x, PairLe)), Flat(Sort(y, PairLe)));
      FlatInjective(Sort(x, PairLe), Sort(y, PairLe));
      EqualPairsCover(tags, a.entries, b.entries, hash);
      EqualPairsCover(tags, b.entries, a.entries, hash);
    }
    if SameHeader(a, b) && Covers(a.entries, b.entries) && Covers(b.entries, a.entries) {
      CoverEqualPairs(tags, a.entries, b.entries, hash);
      SameSize(x, y);
      SameHeaderFields(tags, a, b);
    }
  }

  lemma SameSize<T>(a: seq<T>, b: seq<T>)
    requires multiset(a) == multiset(b)
    ensures |a| == |b|
  {
    assert |multiset(a)| == |a| && |multiset(b)| == |b|;
  }

  lemma SameHeaderFields(tags: Tags, a: Manifest, b: Manifest)
    requires SameHeader(a, b) && |a.entries| == |b.entries|
    ensures HeaderFields(tags, a) == HeaderFields(tags, b)
  {
  }
}
