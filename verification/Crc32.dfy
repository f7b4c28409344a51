/**
 * CRC-32 of `evals/fixtures/transcription.ts`: the table-driven form against
 * the bit-by-bit definition of section 3.4 of RFC 2083.
 */
module Crc32 {

  type Byte = bv8

  const POLYNOMIAL: bv32 := 0xedb88320

  const ONES: bv32 := 0xffff_ffff

  const BITS: nat := 8

  // -------------------------------------------------------------------------
  // The definition: one bit at a time, least significant first.
  // -------------------------------------------------------------------------

  /** The register after one data bit, the low one of `data`. */
  function FeedBit(c: bv32, data: bv32): bv32 {
    if (c ^ data) & 1 == 1 then POLYNOMIAL ^ (c >> 1) else c >> 1
  }

  function Half(data: bv32): bv32 {
    data >> 1
  }

  /** Feed, move on to the next bit, feed again: `n` times. */
  function Fed<T>(feed: (T, T) -> T, next: T -> T, c: T, data: T, n: nat): T
    decreases n
  {
    if n == 0 then c else Fed(feed, next, feed(c, data), next(data), n - 1)
  }

  function FeedByte(c: bv32, byte: Byte): bv32 {
    Fed(FeedBit, Half, c, byte as bv32, BITS)
  }

  function Folded<S, T>(feed: (S, T) -> S, c: S, data: seq<T>): S {
    if data == [] then c else feed(Folded(feed, c, data[..|data| - 1]), data[|data| - 1])
  }

  function FeedBytes(c: bv32, bytes: seq<Byte>): bv32 {
    Folded(FeedByte, c, bytes)
  }

  /** Start from all ones, feed every bit, complement. */
  function Crc(bytes: seq<Byte>): bv32 {
    FeedBytes(ONES, bytes) ^ ONES
  }

  // -------------------------------------------------------------------------
  // Shift registers in general.
  // -------------------------------------------------------------------------

  function Iterated<T>(f: T -> T, x: T, n: nat): T
    decreases n
  {
    if n == 0 then x else Iterated(f, f(x), n - 1)
  }

  /** A turn of `f` on a sum is a turn of `g` on one part and of `next` on the other. */
  ghost predicate Carries<T>(f: T -> T, g: T -> T, next: T -> T, plus: (T, T) -> T, c: T, data: T) {
    f(plus(c, data)) == plus(g(c), next(data))
  }

  /** A turn of `f` on a sum feeds one part and leaves the other to `next`. */
  ghost predicate CarriesFeed<T>(f: T -> T, feed: (T, T) -> T, next: T -> T, plus: (T, T) -> T, c: T, data: T) {
    f(plus(c, data)) == plus(feed(c, data), next(data))
  }

  /** Feeding piece by piece is mixing everything in first, less what is still to come. */
  lemma {:induction false} FeedingIsIterating<T(!new)>(f: T -> T, feed: (T, T) -> T, next: T -> T, plus: (T, T) -> T,
                                                       c: T, data: T, n: nat)
    requires forall c, data :: CarriesFeed(f, feed, next, plus, c, data)
    ensures Iterated(f, plus(c, data), n) == plus(Fed(feed, next, c, data, n), Iterated(next, data, n))
    decreases n
  {
    if n > 0 {
      assert CarriesFeed(f, feed, next, plus, c, data);
      FeedingIsIterating(f, feed, next, plus, feed(c, data), next(data), n - 1);
    }
  }

  /** `idle` holds of what is left at each of the next `n` turns. */
  ghost predicate StaysIdle<T>(idle: T -> bool, next: T -> T, data: T, n: nat)
    decreases n
  {
    n == 0 || (idle(data) && StaysIdle(idle, next, next(data), n - 1))
  }

  /** Idle parts of a register ride along. */
  lemma {:induction false} IdlePartsRideAlong<T(!new)>(f: T -> T, next: T -> T, plus: (T, T) -> T, idle: T -> bool,
                                                       c: T, data: T, n: nat)
    requires forall c, data :: idle(data) ==> Carries(f, f, next, plus, c, data)
    requires StaysIdle(idle, next, data, n)
    ensures Iterated(f, plus(c, data), n) == plus(Iterated(f, c, n), Iterated(next, data, n))
    decreases n
  {
    if n > 0 {
      assert Carries(f, f, next, plus, c, data);
      IdlePartsRideAlong(f, next, plus, idle, f(c), next(data), n - 1);
    }
  }

  lemma {:induction false} IteratedIsInjective<T(!new)>(f: T -> T, a: T, b: T, n: nat)
    requires forall x, y :: f(x) == f(y) ==> x == y
    requires Iterated(f, a, n) == Iterated(f, b, n)
    ensures a == b
    decreases n
  {
    if n > 0 {
      IteratedIsInjective(f, f(a), f(b), n - 1);
    }
  }

  lemma EightTurns<T>(f: T -> T, x: T)
    ensures Iterated(f, x, 8) == f(f(f(f(f(f(f(f(x))))))))
  {
    assert Iterated(f, x, 8) == Iterated(f, f(f(f(f(x)))), 4);
  }

  lemma IdleForEight<T>(idle: T -> bool, next: T -> T, x: T)
    requires idle(x) && idle(next(x)) && idle(next(next(x))) && idle(next(next(next(x))))
    requires var y := next(next(next(next(x))));
      idle(y) && idle(next(y)) && idle(next(next(y))) && idle(next(next(next(y))))
    ensures StaysIdle(idle, next, x, 8)
  {
    assert StaysIdle(idle, next, next(next(next(next(x)))), 4);
  }

  // -------------------------------------------------------------------------
  // This register.
  // -------------------------------------------------------------------------

  function Shift(c: bv32): bv32 {
    if c & 1 == 1 then POLYNOMIAL ^ (c >> 1) else c >> 1
  }

  function Xor(a: bv32, b: bv32): bv32 {
    a ^ b
  }

  predicate IsEven(data: bv32) {
    data & 1 == 0
  }

  lemma HalvesAddUp(p: bv32, c: bv32, data: bv32)
    ensures (c ^ data) >> 1 == (c >> 1) ^ (data >> 1)
    ensures p ^ ((c ^ data) >> 1) == (p ^ (c >> 1)) ^ (data >> 1)
  {
  }

  lemma EvenKeepsTheLowBit(c: bv32, data: bv32)
    requires data & 1 == 0
    ensures (c ^ data) & 1 == c & 1
  {
  }

  /** A shift that drops a set bit, of a sum and of its first part. */
  lemma OddPartsAddUp(c: bv32, data: bv32)
    requires (c ^ data) & 1 == 1
    ensures Shift(c ^ data) == (POLYNOMIAL ^ (c >> 1)) ^ (data >> 1)
  {
    calc {
      Shift(c ^ data);
      POLYNOMIAL ^ ((c ^ data) >> 1);
      { HalvesAddUp(POLYNOMIAL, c, data); }
      (POLYNOMIAL ^ (c >> 1)) ^ (data >> 1);
    }
  }

  lemma EvenPartsAddUp(c: bv32, data: bv32)
    requires (c ^ data) & 1 != 1
    ensures Shift(c ^ data) == (c >> 1) ^ (data >> 1)
  {
    calc {
      Shift(c ^ data);
      (c ^ data) >> 1;
      { HalvesAddUp(POLYNOMIAL, c, data); }
      (c >> 1) ^ (data >> 1);
    }
  }

  lemma FeedRidesAlong(c: bv32, data: bv32)
    ensures Shift(c ^ data) == FeedBit(c, data) ^ (data >> 1)
  {
    if (c ^ data) & 1 == 1 {
      OddPartsAddUp(c, data);
    } else {
      EvenPartsAddUp(c, data);
    }
  }

  /** Even data does not show in the bit that is dropped. */
  lemma EvenRidesAlong(c: bv32, data: bv32)
    requires data & 1 == 0
    ensures Shift(c ^ data) == Shift(c) ^ (data >> 1)
  {
    EvenKeepsTheLowBit(c, data);
    if c & 1 == 1 {
      OddPartsAddUp(c, data);
    } else {
      EvenPartsAddUp(c, data);
    }
  }

  lemma ShiftIsInjective(a: bv32, b: bv32)
    requires Shift(a) == Shift(b)
    ensures a == b
  {
  }

  // The two laws for `Shift` as a value; the steps go through an arbitrary
  // function so that only its values, not its definition, matter.

  ghost predicate Takes(f: bv32 -> bv32, g: bv32 -> bv32, c: bv32, data: bv32) {
    f(c ^ data) == g(c) ^ (data >> 1)
  }

  lemma TakesAt(f: bv32 -> bv32, g: bv32 -> bv32, c: bv32, data: bv32, sum: bv32, part: bv32)
    requires f(c ^ data) == sum && g(c) == part && sum == part ^ (data >> 1)
    ensures Takes(f, g, c, data)
  {
  }

  lemma ShiftTakesEven(c: bv32, data: bv32)
    requires data & 1 == 0
    ensures Takes(Shift, Shift, c, data)
  {
    EvenRidesAlong(c, data);
    TakesAt(Shift, Shift, c, data, Shift(c ^ data), Shift(c));
  }

  lemma TakingIsCarrying(f: bv32 -> bv32, g: bv32 -> bv32)
    requires forall c: bv32, data: bv32 :: data & 1 == 0 ==> Takes(f, g, c, data)
    ensures forall c, data :: IsEven(data) ==> Carries(f, g, Half, Xor, c, data)
  {
    forall c, data | IsEven(data) ensures Carries(f, g, Half, Xor, c, data) {
      assert Takes(f, g, c, data);
    }
  }

  lemma ShiftCarriesEven()
    ensures forall c, data :: IsEven(data) ==> Carries(Shift, Shift, Half, Xor, c, data)
  {
    forall c: bv32, data: bv32 | data & 1 == 0 ensures Takes(Shift, Shift, c, data) {
      ShiftTakesEven(c, data);
    }
    TakingIsCarrying(Shift, Shift);
  }

  lemma CarriesFeedAt(f: bv32 -> bv32, feed: (bv32, bv32) -> bv32, c: bv32, data: bv32)
    requires f(c ^ data) == Shift(c ^ data) && feed(c, data) == FeedBit(c, data)
    ensures CarriesFeed(f, feed, Half, Xor, c, data)
  {
    FeedRidesAlong(c, data);
  }

  lemma ShiftCarriesFeed()
    ensures forall c, data :: CarriesFeed(Shift, FeedBit, Half, Xor, c, data)
  {
    forall c, data ensures CarriesFeed(Shift, FeedBit, Half, Xor, c, data) {
      CarriesFeedAt(Shift, FeedBit, c, data);
    }
  }

  lemma EightHalves(data: bv32)
    ensures Iterated(Half, data, BITS) == data >> 8
  {
    EightTurns(Half, data);
    assert data >> 1 >> 1 >> 1 >> 1 >> 1 >> 1 >> 1 >> 1 == data >> 8;
  }

  lemma AClearLowByteIsIdle(data: bv32)
    requires data & 0xff == 0
    ensures StaysIdle(IsEven, Half, data, BITS)
  {
    IdleForEight(IsEven, Half, data);
  }

  /** What the table holds for a byte: eight shifts of it. */
  function Entry(byte: Byte): bv32 {
    Iterated(Shift, byte as bv32, BITS)
  }

  function LowByte(c: bv32): Byte {
    (c & 0xff) as Byte
  }

  /** A table lookup, mixed into what is left of the register. */
  function LookUp(c: bv32, index: bv32): bv32 {
    Entry(LowByte(index)) ^ (c >> 8)
  }

  lemma SplitRegister(c: bv32)
    ensures (c & 0xff) ^ (c & 0xffff_ff00) == c
    ensures (c & 0xffff_ff00) & 0xff == 0
    ensures (c & 0xffff_ff00) >> 8 == c >> 8
    ensures ((c & 0xff) as Byte) as bv32 == c & 0xff
  {
  }

  /** One lookup is eight shifts, for every register. */
  lemma LookupIsEightShifts(c: bv32)
    ensures Entry((c & 0xff) as Byte) ^ (c >> 8) == Iterated(Shift, c, BITS)
  {
    SplitRegister(c);
    var low, high := c & 0xff, c & 0xffff_ff00;
    AClearLowByteIsIdle(high);
    EightHalves(high);
    ShiftCarriesEven();
    IdlePartsRideAlong(Shift, Half, Xor, IsEven, low, high, BITS);
    assert Xor(low, high) == c;
  }

  lemma AByteHasNoHighBits(c: bv32, byte: Byte)
    ensures (byte as bv32) >> 8 == 0
    ensures (c ^ byte as bv32) >> 8 == c >> 8
  {
  }

  lemma XorNothing(c: bv32)
    ensures Xor(c, 0) == c
  {
  }

  lemma FeedingIsShifting(c: bv32, byte: Byte)
    ensures FeedByte(c, byte) == Iterated(Shift, Xor(c, byte as bv32), BITS)
  {
    ShiftCarriesFeed();
    FeedingIsIterating(Shift, FeedBit, Half, Xor, c, byte as bv32, BITS);
    BytesRunOut(byte);
    XorNothing(FeedByte(c, byte));
  }

  /** The byte only reaches the index; the rest of the register is the old one. */
  lemma ShiftingIsLookingUp(c: bv32, byte: Byte, index: bv32, shifted: bv32)
    requires index == c ^ byte as bv32 && shifted == Iterated(Shift, index, BITS)
    ensures shifted == LookUp(c, index)
  {
    LookupIsEightShifts(index);
    AByteHasNoHighBits(c, byte);
  }

  /** Feeding a byte bit by bit is one table lookup. */
  lemma FeedingAByteIsALookup(c: bv32, byte: Byte)
    ensures FeedByte(c, byte) == LookUp(c, c ^ byte as bv32)
  {
    FeedingIsShifting(c, byte);
    ShiftingIsLookingUp(c, byte, c ^ byte as bv32, FeedByte(c, byte));
  }

  // -------------------------------------------------------------------------
  // The code.
  // -------------------------------------------------------------------------

  ghost predicate IsTable(table: array<bv32>)
    reads table
  {
    table.Length == 256 && forall n :: 0 <= n < 256 ==> table[n] == Entry(n as Byte)
  }

  method EntryFor(byte: Byte) returns (c: bv32)
    ensures c == Entry(byte)
  {
    c := byte as bv32;
    for k := 0 to BITS
      invariant Iterated(Shift, c, BITS - k) == Entry(byte)
    {
      c := if c & 1 == 1 then POLYNOMIAL ^ (c >> 1) else c >> 1;
    }
  }

  function Entries(n: nat): (r: seq<bv32>)
    requires n <= 256
    ensures |r| == n
  {
    if n == 0 then [] else Entries(n - 1) + [Entry((n - 1) as Byte)]
  }

  lemma EntriesOneMore(n: nat, entry: bv32)
    requires n < 256 && entry == Entry(n as Byte)
    ensures Entries(n + 1) == Entries(n) + [entry]
  {
  }

  lemma {:induction false} EntriesAt(n: nat, m: nat)
    requires m < n <= 256
    ensures Entries(n)[m] == Entry(m as Byte)
  {
    if m < n - 1 {
      EntriesAt(n - 1, m);
    }
  }

  lemma EntriesAreComplete(entries: seq<bv32>)
    requires entries == Entries(256)
    ensures |entries| == 256 && forall m :: 0 <= m < 256 ==> entries[m] == Entry(m as Byte)
  {
    forall m | 0 <= m < 256 ensures entries[m] == Entry(m as Byte) {
      EntriesAt(256, m);
    }
  }

  method FillTable(table: array<bv32>)
    requires table.Length == 256
    modifies table
    ensures table[..] == Entries(256)
  {
    for n := 0 to 256
      invariant table[..n] == Entries(n)
    {
      var entry := EntryFor(n as Byte);
      EntriesOneMore(n, entry);
      table[n] := entry;
      assert table[..n + 1] == table[..n] + [entry];
    }
    assert table[..] == table[..256];
  }

  method BuildTable() returns (table: array<bv32>)
    ensures fresh(table) && IsTable(table)
  {
    table := new bv32[256];
    FillTable(table);
    EntriesAreComplete(table[..]);
  }

  lemma LowByteIsAnIndex(c: bv32)
    ensures 0 <= LowByte(c) as int < 256 && (LowByte(c) as int) as Byte == LowByte(c)
  {
  }

  lemma FeedOneMore(c: bv32, bytes: seq<Byte>, i: nat)
    requires i < |bytes|
    ensures FeedBytes(c, bytes[..i + 1]) == FeedByte(FeedBytes(c, bytes[..i]), bytes[i])
  {
    assert bytes[..i + 1][..i] == bytes[..i];
  }

  lemma EntryIsFeeding(c: bv32, byte: Byte, entry: bv32)
    requires entry == Entry(LowByte(c ^ byte as bv32))
    ensures entry ^ (c >> 8) == FeedByte(c, byte)
  {
    FeedingAByteIsALookup(c, byte);
  }

  method Step(table: array<bv32>, c: bv32, byte: Byte) returns (c': bv32)
    requires IsTable(table)
    ensures c' == FeedByte(c, byte)
  {
    var index := LowByte(c ^ byte as bv32);
    LowByteIsAnIndex(c ^ byte as bv32);
    var entry := table[index as int];
    EntryIsFeeding(c, byte, entry);
    c' := entry ^ (c >> 8);
  }

  /** `crc32`, one lookup a byte, is the bit-by-bit CRC. */
  method ComputeCrc(table: array<bv32>, bytes: seq<Byte>) returns (crc: bv32)
    requires IsTable(table)
    ensures crc == Crc(bytes)
  {
    var c := ONES;
    for i := 0 to |bytes|
      invariant c == FeedBytes(ONES, bytes[..i])
    {
      FeedOneMore(ONES, bytes, i);
      c := Step(table, c, bytes[i]);
    }
    assert bytes[..|bytes|] == bytes;
    crc := c ^ ONES;
  }

  // -------------------------------------------------------------------------
  // What the checksum catches.
  // -------------------------------------------------------------------------

  lemma XorCancelsLeft(c: bv32, x: bv32, y: bv32)
    requires c ^ x == c ^ y
    ensures x == y
  {
  }

  lemma XorCancelsRight(c: bv32, e: bv32, x: bv32)
    requires c ^ x == e ^ x
    ensures c == e
  {
  }

  lemma WideningKeepsBytesApart(x: Byte, y: Byte)
    ensures x as bv32 == y as bv32 <==> x == y
  {
  }

  lemma ShiftLosesNothing()
    ensures forall x, y :: Shift(x) == Shift(y) ==> x == y
  {
    forall x, y | Shift(x) == Shift(y) ensures x == y {
      ShiftIsInjective(x, y);
    }
  }

  /** Equal registers after feeding, with as much still to come, were fed equal sums. */
  lemma FeedingLosesNothing(c: bv32, x: bv32, e: bv32, y: bv32, n: nat)
    requires Fed(FeedBit, Half, c, x, n) == Fed(FeedBit, Half, e, y, n)
    requires Iterated(Half, x, n) == Iterated(Half, y, n)
    ensures Xor(c, x) == Xor(e, y)
  {
    ShiftCarriesFeed();
    FeedingIsIterating(Shift, FeedBit, Half, Xor, c, x, n);
    FeedingIsIterating(Shift, FeedBit, Half, Xor, e, y, n);
    ShiftLosesNothing();
    IteratedIsInjective(Shift, Xor(c, x), Xor(e, y), n);
  }

  lemma SameDataSameRegister(c: bv32, e: bv32, data: bv32, n: nat)
    requires Fed(FeedBit, Half, c, data, n) == Fed(FeedBit, Half, e, data, n)
    ensures c == e
  {
    FeedingLosesNothing(c, data, e, data, n);
    XorCancelsRight(c, e, data);
  }

  lemma SameRegisterSameData(c: bv32, x: bv32, y: bv32, n: nat)
    requires Fed(FeedBit, Half, c, x, n) == Fed(FeedBit, Half, c, y, n)
    requires Iterated(Half, x, n) == Iterated(Half, y, n)
    ensures x == y
  {
    FeedingLosesNothing(c, x, c, y, n);
    XorCancelsLeft(c, x, y);
  }

  lemma SameByteSameRegister(c: bv32, e: bv32, byte: Byte)
    requires FeedByte(c, byte) == FeedByte(e, byte)
    ensures c == e
  {
    SameDataSameRegister(c, e, byte as bv32, BITS);
  }

  lemma BytesRunOut(byte: Byte)
    ensures Iterated(Half, byte as bv32, BITS) == 0
  {
    EightHalves(byte as bv32);
    AByteHasNoHighBits(0, byte);
  }

  lemma SameRegisterSameByte(c: bv32, x: Byte, y: Byte)
    requires FeedByte(c, x) == FeedByte(c, y)
    ensures x == y
  {
    BytesRunOut(x);
    BytesRunOut(y);
    SameRegisterSameData(c, x as bv32, y as bv32, BITS);
    WideningKeepsBytesApart(x, y);
  }

  /** One difference keeps two runs apart, when no step merges either what it was or what it got. */
  lemma {:induction false} RunsStayApart<S(!new), T(!new)>(feed: (S, T) -> S, c: S, a: seq<T>, b: seq<T>, i: nat)
    requires forall c, e, x :: feed(c, x) == feed(e, x) ==> c == e
    requires forall c, x, y :: feed(c, x) == feed(c, y) ==> x == y
    requires |a| == |b| && i < |a| && a[i] != b[i]
    requires forall j :: 0 <= j < |a| && j != i ==> a[j] == b[j]
    ensures Folded(feed, c, a) != Folded(feed, c, b)
  {
    var last := |a| - 1;
    if i < last {
      RunsStayApart(feed, c, a[..last], b[..last], i);
    } else {
      assert a[..last] == b[..last];
    }
  }

  lemma FeedByteKeepsRegistersApart()
    ensures forall c, e, x :: FeedByte(c, x) == FeedByte(e, x) ==> c == e
  {
    forall c, e, x | FeedByte(c, x) == FeedByte(e, x) ensures c == e {
      SameByteSameRegister(c, e, x);
    }
  }

  lemma FeedByteKeepsBytesApart()
    ensures forall c, x, y :: FeedByte(c, x) == FeedByte(c, y) ==> x == y
  {
    forall c, x, y | FeedByte(c, x) == FeedByte(c, y) ensures x == y {
      SameRegisterSameByte(c, x, y);
    }
  }

  lemma ComplementKeepsApart(a: bv32, b: bv32)
    requires a != b
    ensures a ^ ONES != b ^ ONES
  {
  }

  /** A change to any single byte of a message changes its checksum. */
  lemma OneByteChangesTheChecksum(a: seq<Byte>, b: seq<Byte>, i: nat)
    requires |a| == |b| && i < |a| && a[i] != b[i]
    requires forall j :: 0 <= j < |a| && j != i ==> a[j] == b[j]
    ensures Crc(a) != Crc(b)
  {
    FeedByteKeepsRegistersApart();
    FeedByteKeepsBytesApart();
    RunsStayApart(FeedByte, ONES, a, b, i);
    ComplementKeepsApart(FeedBytes(ONES, a), FeedBytes(ONES, b));
  }
}
