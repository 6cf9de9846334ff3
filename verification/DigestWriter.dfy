/**
  The running hash that every digest is fed through (agent/driver/contract.go:868-909), and the two
  digests that feed sorted copies of their lists into it (agent/driver/probe.go:203-256,
  agent/capability/manifest.go:220-261).  The hash function is applied to what has been written.
*/
module DigestWriter {
  import opened DigestLayout
  import opened CapabilityDigest

  lemma {:induction false} LayoutAppends(fields: seq<Bytes>, last: Bytes)
    ensures Layout(fields + [last]) == Layout(fields) + Field(last)
    decreases |fields|
  {
    hide Field;
    if fields == [] {
      assert [last][1..] == [] && fields + [last] == [last];
      assert Layout([last]) == Field(last) + Layout([]);
    } else {
      LayoutAppends(fields[1..], last);
      assert (fields + [last])[1..] == fields[1..] + [last];
      assert Field(fields[0]) + (Layout(fields[1..]) + Field(last))
          == Field(fields[0]) + Layout(fields[1..]) + Field(last);
    }
  }

  class Writer {
    var written: Bytes
    ghost var fields: seq<Bytes>

    /** What has been written is the layout of the fields so far. */
    ghost predicate Valid()
      reads this
    {
      written == Layout(fields)
    }

    constructor (domain: Bytes)
      ensures Valid() && fields == [domain]
    {
      written, fields := [], [];
      new;
      Write(domain);
    }

    method Write(value: Bytes)
      requires Valid()
      modifies this
      ensures Valid() && fields == old(fields) + [value]
    {
      hide Layout, Field, BigEndian;
      LayoutAppends(fields, value);
      WriteField(value);
      fields := fields + [value];
    }

    /** The length, reduced to 32 bits, before the bytes. */
    method WriteField(value: Bytes)
      modifies this`written
      ensures written == old(written) + Field(value)
    {
      var length := BigEndian(|value| % LENGTH_LIMIT, 4);
      written := written + length;
      written := written + value;
    }

    /** A 64-bit number, a negative one as its two's complement. */
    method Uint(value: int)
      requires Valid()
      modifies this
      ensures Valid() && fields == old(fields) + [Word(value)]
    {
      Write(Word(value));
    }

    method Strings(values: seq<Bytes>)
      requires Valid()
      modifies this
      ensures Valid() && fields == old(fields) + Group(values)
    {
      hide Layout, Word;
      Uint(|values|);
      ghost var start := fields;
      for i := 0 to |values|
        invariant Valid() && fields == start + values[..i]
      {
        Write(values[i]);
        assert values[..i] + [values[i]] == values[..i + 1];
      }
      assert values[..|values|] == values;
    }

    method Uints(values: seq<nat>)
      requires Valid()
      modifies this
      ensures Valid() && fields == old(fields) + Group(Words(values))
    {
      hide Layout, Word;
      Uint(|values|);
      ghost var start := fields;
      for i := 0 to |values|
        invariant Valid() && fields == start + Words(values)[..i]
      {
        Uint(values[i]);
        assert Words(values)[..i] + [Words(values)[i]] == Words(values)[..i + 1];
      }
      assert Words(values)[..|values|] == Words(values);
    }

    method Time(value: Time)
      requires Valid()
      modifies this
      ensures Valid() && fields == old(fields) + TimeFields(value)
    {
      hide Layout, Word;
      Uint(value.seconds);
      Uint(value.nanos);
    }

    method Pairs(pairs: seq<Pair>)
      requires Valid()
      modifies this
      ensures Valid() && fields == old(fields) + Flat(pairs)
    {
      hide Layout;
      ghost var start := fields;
      for i := 0 to |pairs|
        invariant Valid() && fields == start + Flat(pairs[..i])
      {
        Write(pairs[i].key);
        Write(pairs[i].digest);
        FlatAppends(pairs[..i], pairs[i]);
        assert pairs[..i] + [pairs[i]] == pairs[..i + 1];
      }
      assert pairs[..|pairs|] == pairs;
    }
  }

  lemma {:induction false} FlatAppends(pairs: seq<Pair>, last: Pair)
    ensures Flat(pairs + [last]) == Flat(pairs) + [last.key, last.digest]
    decreases |pairs|
  {
    if pairs == [] {
      assert pairs + [last] == [last] && [last][1..] == [];
      assert Flat([last]) == [last.key, last.digest] + Flat([]);
    } else {
      FlatAppends(pairs[1..], last);
      assert (pairs + [last])[1..] == pairs[1..] + [last];
    }
  }

  /** What a probe's digest hashes is the layout of the probe's fields. */
  method WriteProbe(tag: Bytes, probe: Probe) returns (input: Bytes)
    ensures input == Layout(ProbeFields(tag, probe))
  {
    hide Layout, Word, Words, Sort, Group;
    var writer := new Writer(tag);
    writer.Uint(probe.schema);
    writer.Write(probe.key);
    writer.Uint(probe.domain);
    writer.Uints(Sort(probe.operations, NatLe));
    WriteMiddle(writer, probe);
    writer.Strings(Sort(probe.codes, LexLe));
    writer.Strings(Sort(probe.constraints, LexLe));
    writer.Time(probe.probedAt);
    writer.Time(probe.expiresAt);
    assert writer.fields == ProbeFields(tag, probe);
    input := writer.written;
  }

  method WriteMiddle(writer: Writer, probe: Probe)
    requires writer.Valid()
    modifies writer
    ensures writer.Valid() && writer.fields == old(writer.fields) + MiddleFields(probe)
  {
    hide Layout, Word;
    writer.Uint(probe.level);
    writer.Write(probe.name);
    writer.Write(probe.version);
    writer.Uint(probe.health);
    if probe.ready {
      writer.Uint(1);
    } else {
      writer.Uint(0);
    }
  }

  /** What a manifest's digest hashes, with each entry's own digest computed from its content. */
  method WriteManifest(tags: Tags, manifest: Manifest, hash: Bytes -> Bytes) returns (input: Bytes)
    ensures input == Layout(ManifestFields(tags, manifest, hash))
  {
    hide Layout, Word, Sort, Flat, CapabilityDigest.Pairs;
    var writer := new Writer(tags.manifest);
    writer.Uint(manifest.schema);
    writer.Write(manifest.node);
    writer.Uint(manifest.revision);
    writer.Time(manifest.issuedAt);
    writer.Time(manifest.expiresAt);
    writer.Write(manifest.policyKey);
    writer.Write(manifest.attestation);
    var pairs := Sort(CapabilityDigest.Pairs(tags, manifest.entries, hash), PairLe);
    writer.Uint(|pairs|);
    writer.Pairs(pairs);
    assert writer.fields == ManifestFields(tags, manifest, hash);
    input := writer.written;
  }
}
