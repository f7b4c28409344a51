/**
 * What the CRC-32 of `evals/fixtures/transcription.ts` comes to in numbers: its
 * residue on a message followed by its own checksum, and its check value.
 */
module CrcResidue {
  import opened Crc32

  // -------------------------------------------------------------------------
  // Shifting known registers.
  // -------------------------------------------------------------------------

  lemma TwoTurns(c: bv32, one: bv32, two: bv32)
    requires Shift(c) == one && Shift(one) == two
    ensures Iterated(Shift, c, 2) == two
  {
    assert Iterated(Shift, one, 1) == Shift(one);
  }

  lemma {:induction false} TurnsAddUp(c: bv32, m: nat, n: nat)
    ensures Iterated(Shift, c, m + n) == Iterated(Shift, Iterated(Shift, c, m), n)
    decreases m
  {
    if m > 0 {
      TurnsAddUp(Shift(c), m - 1, n);
    }
  }

  lemma FourTurns(c: bv32)
    ensures Iterated(Shift, c, 4) == Shift(Shift(Shift(Shift(c))))
  {
    assert Iterated(Shift, Shift(c), 3) == Iterated(Shift, Shift(Shift(c)), 2);
    assert Iterated(Shift, Shift(Shift(c)), 2) == Iterated(Shift, Shift(Shift(Shift(c))), 1);
    assert Iterated(Shift, Shift(Shift(Shift(c))), 1) == Shift(Shift(Shift(Shift(c))));
  }

  /** The entry of a byte, through the register half way. */
  lemma KnownEntry(byte: Byte, half: bv32, entry: bv32)
    requires Shift(Shift(Shift(Shift(byte as bv32)))) == half && Shift(Shift(Shift(Shift(half)))) == entry
    ensures Entry(byte) == entry
  {
    FourTurns(byte as bv32);
    FourTurns(half);
    TurnsAddUp(byte as bv32, 4, 4);
  }

  /** Feeding a byte whose entry is known. */
  lemma KnownFeed(c: bv32, byte: Byte, index: Byte, entry: bv32, next: bv32)
    requires LowByte(c ^ byte as bv32) == index && Entry(index) == entry && entry ^ (c >> 8) == next
    ensures FeedByte(c, byte) == next
  {
    EntryIsFeeding(c, byte, entry);
  }

  // -------------------------------------------------------------------------
  // The check value.
  // -------------------------------------------------------------------------

  lemma CheckEntries()
    ensures Entry(0xce) == 0x7cdcefb7
    ensures Entry(0x7a) == 0xb0d09822
    ensures Entry(0x1) == 0x77073096
    ensures Entry(0x19) == 0x646ba8c0
    ensures Entry(0x69) == 0x346ed9fc
    ensures Entry(0xd5) == 0xf6b9265b
    ensures Entry(0xa9) == 0xaf0a1b4c
    ensures Entry(0x58) == 0x65b0d9c6
  {
    KnownEntry(0xce, 0xa00ae274, 0x7cdcefb7);
    KnownEntry(0x7a, 0xd6d6a3ef, 0xb0d09822);
    KnownEntry(0x1, 0x1db71064, 0x77073096);
    KnownEntry(0x19, 0xf00f9345, 0x646ba8c0);
    KnownEntry(0x69, 0xf00f9342, 0x346ed9fc);
    KnownEntry(0xd5, 0x6b6b51f9, 0xf6b9265b);
    KnownEntry(0xa9, 0xf00f934e, 0xaf0a1b4c);
    KnownEntry(0x58, 0xedb88325, 0x65b0d9c6);
  }

  /** The register after one more byte of the message, where its entry is known. */
  lemma FeedNext(bytes: seq<Byte>, k: nat, byte: Byte, c: bv32, index: Byte, entry: bv32, next: bv32)
    requires k < |bytes| && bytes[k] == byte && FeedBytes(ONES, bytes[..k]) == c
    requires LowByte(c ^ byte as bv32) == index && Entry(index) == entry && entry ^ (c >> 8) == next
    ensures FeedBytes(ONES, bytes[..k + 1]) == next
  {
    KnownFeed(c, byte, index, entry, next);
    FeedOneMore(ONES, bytes, k);
  }

  /** The digits 1 to 9. */
  const DIGITS: seq<Byte> := [0x31, 0x32, 0x33, 0x34, 0x35, 0x36, 0x37, 0x38, 0x39]

  lemma OneAndTwo()
    ensures FeedBytes(ONES, DIGITS[..2]) == 0xb0acbb32
  {
    CheckEntries();
    assert DIGITS[..0] == [];
    FeedNext(DIGITS, 0, 0x31, 0xffffffff, 0xce, 0x7cdcefb7, 0x7c231048);
    FeedNext(DIGITS, 1, 0x32, 0x7c231048, 0x7a, 0xb0d09822, 0xb0acbb32);
  }

  lemma ThreeAndFour()
    requires FeedBytes(ONES, DIGITS[..2]) == 0xb0acbb32
    ensures FeedBytes(ONES, DIGITS[..4]) == 0x641c1f5c
  {
    CheckEntries();
    FeedNext(DIGITS, 2, 0x33, 0xb0acbb32, 0x1, 0x77073096, 0x77b79c2d);
    FeedNext(DIGITS, 3, 0x34, 0x77b79c2d, 0x19, 0x646ba8c0, 0x641c1f5c);
  }

  lemma FiveAndSix()
    requires FeedBytes(ONES, DIGITS[..4]) == 0x641c1f5c
    ensures FeedBytes(ONES, DIGITS[..6]) == 0xf68d2c9e
  {
    CheckEntries();
    FeedNext(DIGITS, 4, 0x35, 0x641c1f5c, 0x69, 0x346ed9fc, 0x340ac5e3);
    FeedNext(DIGITS, 5, 0x36, 0x340ac5e3, 0xd5, 0xf6b9265b, 0xf68d2c9e);
  }

  lemma SevenToNine()
    requires FeedBytes(ONES, DIGITS[..6]) == 0xf68d2c9e
    ensures FeedBytes(ONES, DIGITS[..9]) == 0x340bc6d9
  {
    CheckEntries();
    FeedNext(DIGITS, 6, 0x37, 0xf68d2c9e, 0xa9, 0xaf0a1b4c, 0xaffc9660);
    FeedNext(DIGITS, 7, 0x38, 0xaffc9660, 0x58, 0x65b0d9c6, 0x651f2550);
    FeedNext(DIGITS, 8, 0x39, 0x651f2550, 0x69, 0x346ed9fc, 0x340bc6d9);
  }

  /** They come to the published check value. */
  lemma TheCheckValue()
    ensures Crc(DIGITS) == 0xcbf43926
  {
    OneAndTwo();
    ThreeAndFour();
    FiveAndSix();
    SevenToNine();
    assert DIGITS[..9] == DIGITS;
    TheComplement(0x340bc6d9, 0xcbf43926, FeedBytes(ONES, DIGITS));
  }

  lemma TheComplement(known: bv32, complement: bv32, c: bv32)
    requires c == known && known ^ ONES == complement
    ensures c ^ ONES == complement
  {
  }

  // -------------------------------------------------------------------------
  // The residue.
  // -------------------------------------------------------------------------

  lemma ResidueEntries()
    ensures Entry(0xff) == 0x2d02ef8d && Entry(0x72) == 0xbe0b1010
    ensures Entry(0) == 0 && Entry(0xed) == 0xdebb9ec5
  {
    KnownEntry(0xff, 0xbdbdf213, 0x2d02ef8d);
    KnownEntry(0x72, 0x3b6e20cf, 0xbe0b1010);
    KnownEntry(0, 0, 0);
    KnownEntry(0xed, 0x86d3d2da, 0xdebb9ec5);
  }

  /** A number as four bytes, the low one first. */
  function LittleEndian(c: bv32): seq<Byte> {
    [LowByte(c), LowByte(c >> 8), LowByte(c >> 16), LowByte(c >> 24)]
  }

  // One byte of the complement at a time: what it leaves of the register byte it
  // meets is a known index, and with its entry mixed in a known register.

  lemma FirstMeets(r: bv32)
    ensures LowByte(r ^ LowByte(r ^ ONES) as bv32) == 0xff
  {
  }

  lemma SecondMeets(r: bv32)
    ensures LowByte((0x2d02ef8d ^ (r >> 8)) ^ LowByte((r ^ ONES) >> 8) as bv32) == 0x72
  {
  }

  lemma SecondLeaves(r: bv32)
    ensures 0xbe0b1010 ^ ((0x2d02ef8d ^ (r >> 8)) >> 8) == 0xbe2612ff ^ (r >> 16)
  {
  }

  lemma ThirdMeets(r: bv32)
    ensures LowByte((0xbe2612ff ^ (r >> 16)) ^ LowByte((r ^ ONES) >> 16) as bv32) == 0
  {
  }

  lemma ThirdLeaves(r: bv32)
    ensures 0 ^ ((0xbe2612ff ^ (r >> 16)) >> 8) == 0xbe2612 ^ (r >> 24)
  {
  }

  lemma FourthMeets(r: bv32)
    ensures LowByte((0xbe2612 ^ (r >> 24)) ^ LowByte((r ^ ONES) >> 24) as bv32) == 0xed
  {
  }

  lemma FourthLeaves(r: bv32)
    ensures 0xdebb9ec5 ^ ((0xbe2612 ^ (r >> 24)) >> 8) == 0xdebb20e3
  {
  }

  lemma FirstComplementByte(r: bv32)
    ensures FeedByte(r, LowByte(r ^ ONES)) == 0x2d02ef8d ^ (r >> 8)
  {
    ResidueEntries();
    FirstMeets(r);
    KnownFeed(r, LowByte(r ^ ONES), 0xff, 0x2d02ef8d, 0x2d02ef8d ^ (r >> 8));
  }

  /** The second byte, from what it meets and leaves. */
  lemma SecondByte(c: bv32, byte: Byte, next: bv32)
    requires LowByte(c ^ byte as bv32) == 0x72 && 0xbe0b1010 ^ (c >> 8) == next
    ensures FeedByte(c, byte) == next
  {
    ResidueEntries();
    KnownFeed(c, byte, 0x72, 0xbe0b1010, next);
  }

  lemma SecondComplementByte(r: bv32, c: bv32, byte: Byte, next: bv32)
    requires c == 0x2d02ef8d ^ (r >> 8) && byte == LowByte((r ^ ONES) >> 8) && next == 0xbe2612ff ^ (r >> 16)
    ensures FeedByte(c, byte) == next
  {
    SecondMeets(r);
    SecondLeaves(r);
    SecondByte(c, byte, next);
  }

  lemma ThirdComplementByte(r: bv32)
    ensures FeedByte(0xbe2612ff ^ (r >> 16), LowByte((r ^ ONES) >> 16)) == 0xbe2612 ^ (r >> 24)
  {
    ResidueEntries();
    ThirdMeets(r);
    ThirdLeaves(r);
    KnownFeed(0xbe2612ff ^ (r >> 16), LowByte((r ^ ONES) >> 16), 0, 0, 0xbe2612 ^ (r >> 24));
  }

  lemma FourthComplementByte(r: bv32)
    ensures FeedByte(0xbe2612 ^ (r >> 24), LowByte((r ^ ONES) >> 24)) == 0xdebb20e3
  {
    ResidueEntries();
    FourthMeets(r);
    FourthLeaves(r);
    KnownFeed(0xbe2612 ^ (r >> 24), LowByte((r ^ ONES) >> 24), 0xed, 0xdebb9ec5, 0xdebb20e3);
  }

  /** Four bytes more, by the registers they leave. */
  lemma FourMoreFed(bytes: seq<Byte>, more: seq<Byte>, r: bv32, a: bv32, b: bv32, c: bv32, d: bv32)
    requires |more| == 4 && FeedBytes(ONES, bytes) == r
    requires FeedByte(r, more[0]) == a && FeedByte(a, more[1]) == b
    requires FeedByte(b, more[2]) == c && FeedByte(c, more[3]) == d
    ensures FeedBytes(ONES, bytes + more) == d
  {
    var all := bytes + more;
    var n := |bytes|;
    assert all[..n] == bytes && all[..n + 4] == all;
    assert all[n] == more[0] && all[n + 1] == more[1] && all[n + 2] == more[2] && all[n + 3] == more[3];
    FeedOneMore(ONES, all, n);
    FeedOneMore(ONES, all, n + 1);
    FeedOneMore(ONES, all, n + 2);
    FeedOneMore(ONES, all, n + 3);
  }

  lemma FeedingTheComplement(bytes: seq<Byte>, r: bv32)
    requires FeedBytes(ONES, bytes) == r
    ensures FeedBytes(ONES, bytes + LittleEndian(r ^ ONES)) == 0xdebb20e3
  {
    FirstComplementByte(r);
    SecondComplementByte(r, 0x2d02ef8d ^ (r >> 8), LowByte((r ^ ONES) >> 8), 0xbe2612ff ^ (r >> 16));
    ThirdComplementByte(r);
    FourthComplementByte(r);
    FourMoreFed(bytes, LittleEndian(r ^ ONES), r,
      0x2d02ef8d ^ (r >> 8), 0xbe2612ff ^ (r >> 16), 0xbe2612 ^ (r >> 24), 0xdebb20e3);
  }

  /**
   * The residue: a message followed by its own checksum, low byte first, always
   * comes to one and the same number, whatever the message.
   */
  lemma TheResidue(bytes: seq<Byte>)
    ensures Crc(bytes + LittleEndian(Crc(bytes))) == 0x2144df1c
  {
    FeedingTheComplement(bytes, FeedBytes(ONES, bytes));
    TheComplement(0xdebb20e3, 0x2144df1c, FeedBytes(ONES, bytes + LittleEndian(Crc(bytes))));
  }
}
