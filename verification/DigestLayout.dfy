/**
  The byte layout fed to SHA-256 (agent/driver/contract.go:868-925, agent/driver/probe.go:203-256,
  agent/capability/manifest.go:209-261): every field is preceded by its length in four big-endian
  bytes, numbers take eight bytes, lists are preceded by their count, and unordered lists are
  sorted first.  Go strings are byte sequences here; the hash is any injective function.
*/
module DigestLayout {
  type Byte = b: int | 0 <= b < 256
  type Bytes = seq<Byte>

  const LENGTH_LIMIT: int := 0x1_0000_0000
  const WORD_LIMIT: int := 0x1_0000_0000_0000_0000

  // ---------------------------------------------------------------- numbers

  function Power(width: nat): nat {
    if width == 0 then 1 else 256 * Power(width - 1)
  }

  /** The low `width` bytes of a number, most significant first. */
  function BigEndian(value: nat, width: nat): (bytes: Bytes)
    ensures |bytes| == width
  {
    if width == 0 then [] else BigEndian(value / 256, width - 1) + [value % 256]
  }

  lemma {:induction false} BigEndianInjective(a: nat, b: nat, width: nat)
    requires a < Power(width) && b < Power(width) && BigEndian(a, width) == BigEndian(b, width)
    ensures a == b
  {
    if width > 0 {
      var x, y := BigEndian(a, width), BigEndian(b, width);
      assert x[width - 1] == a % 256 && y[width - 1] == b % 256;
      assert x[..width - 1] == BigEndian(a / 256, width - 1) && y[..width - 1] == BigEndian(b / 256, width - 1);
      BigEndianInjective(a / 256, b / 256, width - 1);
    }
  }

  lemma Powers()
    ensures Power(4) == LENGTH_LIMIT && Power(8) == WORD_LIMIT
  {
    assert Power(1) == 256 && Power(2) == 65536 && Power(3) == 16777216;
    assert Power(4) == LENGTH_LIMIT;
    assert Power(5) == 256 * LENGTH_LIMIT && Power(6) == 65536 * LENGTH_LIMIT && Power(7) == 16777216 * LENGTH_LIMIT;
  }

  /** writeUint: the conversion to uint64 wraps a negative number around. */
  function Word(value: int): (bytes: Bytes)
    ensures |bytes| == 8
  {
    BigEndian(value % WORD_LIMIT, 8)
  }

  predicate SameSide(a: int, b: int) {
    (0 <= a < WORD_LIMIT && 0 <= b < WORD_LIMIT)
    || (-(WORD_LIMIT / 2) <= a < WORD_LIMIT / 2 && -(WORD_LIMIT / 2) <= b < WORD_LIMIT / 2)
  }

  /** Injective on unsigned and on signed 64-bit numbers. */
  lemma WordInjective(a: int, b: int)
    requires SameSide(a, b) && Word(a) == Word(b)
    ensures a == b
  {
    hide BigEndian, Power;
    Powers();
    BigEndianInjective(a % WORD_LIMIT, b % WORD_LIMIT, 8);
    SameRemainder(a, b);
  }

  lemma SameRemainder(a: int, b: int)
    requires SameSide(a, b) && a % WORD_LIMIT == b % WORD_LIMIT
    ensures a == b
  {
    if a >= 0 && b >= 0 {
      assert a % WORD_LIMIT == a && b % WORD_LIMIT == b;
    } else {
      assert a % WORD_LIMIT == (if a < 0 then a + WORD_LIMIT else a);
      assert b % WORD_LIMIT == (if b < 0 then b + WORD_LIMIT else b);
    }
  }

  // ---------------------------------------------------------------- fields

  function Field(bytes: Bytes): Bytes {
    BigEndian(|bytes| % LENGTH_LIMIT, 4) + bytes
  }

  function Layout(fields: seq<Bytes>): Bytes {
    if fields == [] then [] else Field(fields[0]) + Layout(fields[1..])
  }

  predicate Short(fields: seq<Bytes>) {
    forall i | 0 <= i < |fields| :: |fields[i]| < LENGTH_LIMIT
  }

  lemma FieldIsPrefixFree(a: Bytes, b: Bytes, x: Bytes, y: Bytes)
    requires |a| < LENGTH_LIMIT && |b| < LENGTH_LIMIT && Field(a) + x == Field(b) + y
    ensures a == b && x == y
  {
    hide BigEndian, Power;
    var left, right := Field(a) + x, Field(b) + y;
    assert |a| % LENGTH_LIMIT == |a| && |b| % LENGTH_LIMIT == |b|;
    assert left[..4] == BigEndian(|a|, 4) && right[..4] == BigEndian(|b|, 4);
    Powers();
    BigEndianInjective(|a|, |b|, 4);
    assert left[4..4 + |a|] == a && right[4..4 + |b|] == b;
    assert left[4 + |a|..] == x && right[4 + |b|..] == y;
  }

  /** The layout is injective on lists of fields shorter than 4 GiB each. */
  lemma {:induction false} LayoutInjective(a: seq<Bytes>, b: seq<Bytes>)
    requires Short(a) && Short(b) && Layout(a) == Layout(b)
    ensures a == b
    decreases |a|
  {
    if a == [] || b == [] {
      assert Layout(a) == [] ==> a == [];
      assert Layout(b) == [] ==> b == [];
    } else {
      FieldIsPrefixFree(a[0], b[0], Layout(a[1..]), Layout(b[1..]));
      LayoutInjective(a[1..], b[1..]);
      assert a == [a[0]] + a[1..] && b == [b[0]] + b[1..];
    }
  }

  function Zeros(n: nat): Bytes {
    seq(n, i => 0)
  }

  function Empties(n: nat): seq<Bytes> {
    seq(n, i => [])
  }

  lemma {:induction false} EmptyFields(n: nat)
    ensures Layout(Empties(n)) == Zeros(4 * n)
  {
    if n > 0 {
      EmptyFields(n - 1);
      assert Empties(n)[0] == [] && Empties(n)[1..] == Empties(n - 1);
      EmptyPrefix();
      assert Zeros(4) + Zeros(4 * (n - 1)) == Zeros(4 * n);
    }
  }

  /** Beyond that length the prefix wraps around, and one long field is laid out like many empty ones. */
  lemma LongFieldsCollide()
    ensures Layout([Zeros(LENGTH_LIMIT)]) == Layout(Empties(LENGTH_LIMIT / 4 + 1))
    ensures [Zeros(LENGTH_LIMIT)] != Empties(LENGTH_LIMIT / 4 + 1)
  {
    var long := Zeros(LENGTH_LIMIT);
    EmptyFields(LENGTH_LIMIT / 4 + 1);
    EmptyPrefix();
    OneField(long);
    assert Zeros(4) + long == Zeros(4 * (LENGTH_LIMIT / 4 + 1));
  }

  lemma OneField(bytes: Bytes)
    ensures Layout([bytes]) == Field(bytes)
  {
    var fields: seq<Bytes> := [bytes];
    assert fields[1..] == [];
    assert Field(bytes) + [] == Field(bytes);
  }

  lemma EmptyPrefix()
    ensures BigEndian(0, 4) == Zeros(4) && Field([]) == Zeros(4)
  {
    assert BigEndian(0, 1) == [0] && BigEndian(0, 2) == [0, 0] && BigEndian(0, 3) == [0, 0, 0];
    assert BigEndian(0, 4) == [0, 0, 0, 0];
  }

  // ---------------------------------------------------------------- counted lists

  function Group(items: seq<Bytes>): seq<Bytes> {
    [Word(|items|)] + items
  }

  /** The count keeps a list apart from whatever follows it. */
  lemma GroupIsPrefixFree(a: seq<Bytes>, b: seq<Bytes>, x: seq<Bytes>, y: seq<Bytes>)
    requires |a| < WORD_LIMIT && |b| < WORD_LIMIT && Group(a) + x == Group(b) + y
    ensures a == b && x == y
  {
    var left, right := Group(a) + x, Group(b) + y;
    assert left[0] == right[0];
    WordInjective(|a|, |b|);
    assert left[1..1 + |a|] == a && right[1..1 + |b|] == b;
    assert left[1 + |a|..] == x && right[1 + |b|..] == y;
  }

  // ---------------------------------------------------------------- sorting

  ghost predicate TotalOrder<T(!new)>(le: (T, T) -> bool) {
    && (forall a, b :: le(a, b) || le(b, a))
    && (forall a, b :: le(a, b) && le(b, a) ==> a == b)
    && (forall a, b, c :: le(a, b) && le(b, c) ==> le(a, c))
  }

  predicate Ascending<T>(items: seq<T>, le: (T, T) -> bool) {
    forall i, j | 0 <= i < j < |items| :: le(items[i], items[j])
  }

  function Insert<T>(item: T, sorted: seq<T>, le: (T, T) -> bool): seq<T> {
    if sorted == [] || le(item, sorted[0]) then [item] + sorted else [sorted[0]] + Insert(item, sorted[1..], le)
  }

  function Sort<T>(items: seq<T>, le: (T, T) -> bool): (sorted: seq<T>)
    ensures |sorted| == |items|
  {
    if items == [] then []
    else
      InsertSize(items[0], Sort(items[1..], le), le);
      Insert(items[0], Sort(items[1..], le), le)
  }

  lemma {:induction false} InsertSize<T>(item: T, sorted: seq<T>, le: (T, T) -> bool)
    ensures |Insert(item, sorted, le)| == |sorted| + 1
    decreases |sorted|
  {
    if sorted != [] {
      InsertSize(item, sorted[1..], le);
    }
  }

  lemma {:induction false} InsertSorts<T(!new)>(item: T, sorted: seq<T>, le: (T, T) -> bool)
    requires TotalOrder(le) && Ascending(sorted, le)
    ensures Ascending(Insert(item, sorted, le), le)
        && multiset(Insert(item, sorted, le)) == multiset(sorted) + multiset{item}
    decreases |sorted|
  {
    if sorted == [] || le(item, sorted[0]) {
      FirstIsLeast(item, sorted, le);
    } else {
      var tail := Insert(item, sorted[1..], le);
      InsertSorts(item, sorted[1..], le);
      assert sorted == [sorted[0]] + sorted[1..];
      forall i | 0 <= i < |tail|
        ensures le(sorted[0], tail[i])
      {
        assert tail[i] in multiset(tail);
        assert tail[i] == item || tail[i] in sorted[1..];
      }
      ConsAscends(sorted[0], tail, le);
    }
  }

  lemma FirstIsLeast<T(!new)>(item: T, sorted: seq<T>, le: (T, T) -> bool)
    requires TotalOrder(le) && Ascending(sorted, le) && (sorted != [] ==> le(item, sorted[0]))
    ensures Ascending([item] + sorted, le)
  {
    forall i | 0 <= i < |sorted|
      ensures le(item, sorted[i])
    {
      assert i > 0 ==> le(sorted[0], sorted[i]);
    }
    ConsAscends(item, sorted, le);
  }

  lemma ConsAscends<T>(first: T, rest: seq<T>, le: (T, T) -> bool)
    requires Ascending(rest, le) && forall i | 0 <= i < |rest| :: le(first, rest[i])
    ensures Ascending([first] + rest, le)
  {
    var all := [first] + rest;
    forall i, j | 0 <= i < j < |all|
      ensures le(all[i], all[j])
    {
      assert all[j] == rest[j - 1] && (i > 0 ==> all[i] == rest[i - 1]);
    }
  }

  lemma {:induction false} SortSorts<T(!new)>(items: seq<T>, le: (T, T) -> bool)
    requires TotalOrder(le)
    ensures Ascending(Sort(items, le), le) && multiset(Sort(items, le)) == multiset(items)
    decreases |items|
  {
    if items != [] {
      SortSorts(items[1..], le);
      InsertSorts(items[0], Sort(items[1..], le), le);
      assert items == [items[0]] + items[1..];
    }
  }

  /** A multiset has one ascending arrangement. */
  lemma {:induction false} AscendingIsUnique<T(!new)>(a: seq<T>, b: seq<T>, le: (T, T) -> bool)
    requires TotalOrder(le) && Ascending(a, le) && Ascending(b, le) && multiset(a) == multiset(b)
    ensures a == b
    decreases |a|
  {
    hide TotalOrder, Ascending;
    assert |multiset(a)| == |a| && |multiset(b)| == |b|;
    if a != [] {
      assert a[0] in multiset(b) && b[0] in multiset(a);
      SameHead(a, b, le);
      TailMultiset(a);
      TailMultiset(b);
      assert a == [a[0]] + a[1..] && b == [b[0]] + b[1..];
      TailAscends(a, le);
      TailAscends(b, le);
      AscendingIsUnique(a[1..], b[1..], le);
    }
  }

  lemma TailMultiset<T>(items: seq<T>)
    requires items != []
    ensures multiset(items[1..]) == multiset(items) - multiset{items[0]}
  {
    assert items == [items[0]] + items[1..];
  }

  lemma SameHead<T(!new)>(a: seq<T>, b: seq<T>, le: (T, T) -> bool)
    requires TotalOrder(le) && Ascending(a, le) && Ascending(b, le) && a != [] && b != [] && a[0] in b && b[0] in a
    ensures a[0] == b[0]
  {
    var i :| 0 <= i < |b| && b[i] == a[0];
    var j :| 0 <= j < |a| && a[j] == b[0];
    assert le(b[0], b[i]) by { assert i > 0 ==> le(b[0], b[i]); }
    assert le(a[0], a[j]) by { assert j > 0 ==> le(a[0], a[j]); }
  }

  lemma TailAscends<T>(items: seq<T>, le: (T, T) -> bool)
    requires items != [] && Ascending(items, le)
    ensures Ascending(items[1..], le)
  {
    forall i, j | 0 <= i < j < |items[1..]|
      ensures le(items[1..][i], items[1..][j])
    {
      assert le(items[i + 1], items[j + 1]);
    }
  }

  /** Sorting forgets the order and nothing else. */
  lemma SortForgetsOrder<T(!new)>(a: seq<T>, b: seq<T>, le: (T, T) -> bool)
    requires TotalOrder(le)
    ensures Sort(a, le) == Sort(b, le) <==> multiset(a) == multiset(b)
  {
    SortSorts(a, le);
    SortSorts(b, le);
    if multiset(a) == multiset(b) {
      AscendingIsUnique(Sort(a, le), Sort(b, le), le);
    }
  }
}
