/**
 * The greyscale PNG encoder of `evals/fixtures/transcription.ts`, and a decoder
 * that reads its files back (sections 3.2, 3.4 and 4.1 of RFC 2083).
 */
module Png {
  import opened Prelude
  import Crc32
  import CrcResidue

  /** A byte of a file, as a number. */
  type Byte = b: int | 0 <= b < 256

  const WORD: int := 0x1_0000_0000

  const SIGNATURE: seq<Byte> := [0x89, 0x50, 0x4e, 0x47, 0x0d, 0x0a, 0x1a, 0x0a]

  // -------------------------------------------------------------------------
  // Four-byte numbers, most significant byte first.
  // -------------------------------------------------------------------------

  /** `setUint32`: what does not fit is cut off. */
  function BigEndian(n: nat): (r: seq<Byte>)
    ensures |r| == 4
  {
    [n / 0x100_0000 % 256, n / 0x1_0000 % 256, n / 0x100 % 256, n % 256]
  }

  function ReadBigEndian(b: seq<Byte>): nat
    requires |b| == 4
  {
    var b0: int, b1: int, b2: int, b3: int := b[0], b[1], b[2], b[3];
    b0 * 0x100_0000 + b1 * 0x1_0000 + b2 * 0x100 + b3
  }

  lemma BigEndianReadsBack(n: nat)
    ensures ReadBigEndian(BigEndian(n)) == n % WORD
  {
    var q1, q2, q3, q4 := n / 0x100, n / 0x1_0000, n / 0x100_0000, n / WORD;
    assert q2 == q1 / 256 && q3 == q2 / 256 && q4 == q3 / 256;
    assert n % WORD == n - q4 * WORD;
  }

  lemma SmallNumbersReadBack(n: nat)
    requires n < WORD
    ensures ReadBigEndian(BigEndian(n)) == n
  {
    BigEndianReadsBack(n);
  }

  // -------------------------------------------------------------------------
  // Checksums as bytes.
  // -------------------------------------------------------------------------

  function Bits(bytes: seq<Byte>): (r: seq<Crc32.Byte>)
    ensures |r| == |bytes|
  {
    seq(|bytes|, i requires 0 <= i < |bytes| => bytes[i] as Crc32.Byte)
  }

  function CrcBytes(c: bv32): (r: seq<Byte>)
    ensures |r| == 4
  {
    [Crc32.LowByte(c >> 24) as int, Crc32.LowByte(c >> 16) as int, Crc32.LowByte(c >> 8) as int,
      Crc32.LowByte(c) as int]
  }

  function Checksum(bytes: seq<Byte>): (r: seq<Byte>)
    ensures |r| == 4
  {
    CrcBytes(Crc32.Crc(Bits(bytes)))
  }

  lemma NextBits(b: Crc32.Byte)
    requires b as int < 255
    ensures (b + 1) as int == b as int + 1
  {
  }

  lemma {:induction false} BitsOf(n: int) returns (b: Crc32.Byte)
    requires 0 <= n < 256
    ensures b as int == n
  {
    if n == 0 {
      b := 0;
    } else {
      var before := BitsOf(n - 1);
      NextBits(before);
      b := before + 1;
    }
  }

  lemma NumbersReadBack(b: Crc32.Byte)
    ensures (b as int) as Crc32.Byte == b
  {
  }

  lemma BitsReadBack(n: int)
    requires 0 <= n < 256
    ensures (n as Crc32.Byte) as int == n
  {
    var b := BitsOf(n);
    NumbersReadBack(b);
  }

  lemma BitsTellApart(a: int, b: int, x: Crc32.Byte, y: Crc32.Byte)
    requires 0 <= a < 256 && 0 <= b < 256 && a != b && x == a as Crc32.Byte && y == b as Crc32.Byte
    ensures x != y
  {
    BitsReadBack(a);
    BitsReadBack(b);
  }

  lemma NumbersTellBitsApart(a: Crc32.Byte, b: Crc32.Byte)
    ensures a as int == b as int <==> a == b
  {
    assert (a as int) as Crc32.Byte == a && (b as int) as Crc32.Byte == b;
  }

  lemma FourBytesAreTheWord(a: bv32, b: bv32)
    requires Crc32.LowByte(a >> 24) == Crc32.LowByte(b >> 24) && Crc32.LowByte(a >> 16) == Crc32.LowByte(b >> 16)
    requires Crc32.LowByte(a >> 8) == Crc32.LowByte(b >> 8) && Crc32.LowByte(a) == Crc32.LowByte(b)
    ensures a == b
  {
  }

  lemma CrcBytesTellApart(a: bv32, b: bv32)
    requires CrcBytes(a) == CrcBytes(b)
    ensures a == b
  {
    assert CrcBytes(a)[0] == CrcBytes(b)[0] && CrcBytes(a)[1] == CrcBytes(b)[1];
    assert CrcBytes(a)[2] == CrcBytes(b)[2] && CrcBytes(a)[3] == CrcBytes(b)[3];
    NumbersTellBitsApart(Crc32.LowByte(a >> 24), Crc32.LowByte(b >> 24));
    NumbersTellBitsApart(Crc32.LowByte(a >> 16), Crc32.LowByte(b >> 16));
    NumbersTellBitsApart(Crc32.LowByte(a >> 8), Crc32.LowByte(b >> 8));
    NumbersTellBitsApart(Crc32.LowByte(a), Crc32.LowByte(b));
    FourBytesAreTheWord(a, b);
  }

  /**
   * A checksum is written the high byte first: over the bytes it checks and then
   * its own from the last to the first, the CRC comes to its residue.
   */
  lemma ChecksumsLeaveTheResidue(bytes: seq<Byte>)
    ensures var check := Bits(Checksum(bytes));
      Crc32.Crc(Bits(bytes) + [check[3], check[2], check[1], check[0]]) == 0x2144df1c
  {
    var c := Crc32.Crc(Bits(bytes));
    NumbersReadBack(Crc32.LowByte(c >> 24));
    NumbersReadBack(Crc32.LowByte(c >> 16));
    NumbersReadBack(Crc32.LowByte(c >> 8));
    NumbersReadBack(Crc32.LowByte(c));
    var check := Bits(Checksum(bytes));
    assert [check[3], check[2], check[1], check[0]] == CrcResidue.LittleEndian(c);
    CrcResidue.TheResidue(Bits(bytes));
  }

  /** A change to any single byte changes the checksum. */
  lemma OneByteChangesTheChecksum(a: seq<Byte>, b: seq<Byte>, i: nat)
    requires |a| == |b| && i < |a| && a[i] != b[i]
    requires forall j :: 0 <= j < |a| && j != i ==> a[j] == b[j]
    ensures Checksum(a) != Checksum(b)
  {
    BitsTellApart(a[i], b[i], Bits(a)[i], Bits(b)[i]);
    Crc32.OneByteChangesTheChecksum(Bits(a), Bits(b), i);
    if Checksum(a) == Checksum(b) {
      CrcBytesTellApart(Crc32.Crc(Bits(a)), Crc32.Crc(Bits(b)));
    }
  }

  // -------------------------------------------------------------------------
  // Chunks.
  // -------------------------------------------------------------------------

  type Tag = t: string | |t| == 4 witness "IEND"

  function Codes(tag: string): (r: seq<Byte>)
    ensures |r| == |tag|
  {
    seq(|tag|, i requires 0 <= i < |tag| => tag[i] as int % 256)
  }

  /** Length, tag and data, and the checksum of tag and data. */
  function ChunkBytes(tag: Tag, data: seq<Byte>): (r: seq<Byte>)
    ensures |r| == |data| + 12
  {
    BigEndian(|data|) + (Codes(tag) + data) + Checksum(Codes(tag) + data)
  }

  /** A chunk at the front of a file. */
  datatype ReadResult = ReadResult(tag: seq<Byte>, data: seq<Byte>, rest: seq<Byte>)

  /** None for a chunk that is cut short or fails its checksum. */
  function ReadChunk(file: seq<Byte>): Option<ReadResult> {
    if |file| < 12 then None
    else
      var length := ReadBigEndian(file[..4]);
      if |file| < 12 + length then None
      else if file[8 + length..12 + length] != Checksum(file[4..8 + length]) then None
      else Some(ReadResult(file[4..8], file[8..8 + length], file[12 + length..]))
  }

  /** The file starts with a chunk of `length` data bytes whose checksum holds. */
  ghost predicate IsFramed(file: seq<Byte>, length: nat) {
    && |file| >= 12 + length && ReadBigEndian(file[..4]) == length
    && file[8 + length..12 + length] == Checksum(file[4..8 + length])
  }

  lemma FrameLayout(head: seq<Byte>, tag: seq<Byte>, data: seq<Byte>, check: seq<Byte>, rest: seq<Byte>,
      file: seq<Byte>)
    requires |head| == |tag| == |check| == 4 && file == head + (tag + data) + check + rest
    ensures var n := |data|;
      && |file| >= 12 + n && file[..4] == head && file[4..8 + n] == tag + data && file[4..8] ==
        tag && file[8..8 + n] == data
      && file[8 + n..12 + n] == check && file[12 + n..] == rest
  {
    assert file == head + (tag + (data + (check + rest)));
  }

  lemma PartsAreFramed(head: seq<Byte>, tag: seq<Byte>, data: seq<Byte>, rest: seq<Byte>, file: seq<Byte>)
    requires |head| == |tag| == 4 && ReadBigEndian(head) == |data|
    requires file == head + (tag + data) + Checksum(tag + data) + rest
    ensures IsFramed(file, |data|)
    ensures file[4..8] == tag && file[8..8 + |data|] == data && file[12 + |data|..] == rest
  {
    FrameLayout(head, tag, data, Checksum(tag + data), rest, file);
  }

  lemma ChunksAreFramed(tag: Tag, data: seq<Byte>, rest: seq<Byte>, file: seq<Byte>)
    requires |data| < WORD && file == ChunkBytes(tag, data) + rest
    ensures IsFramed(file, |data|)
    ensures file[4..8] == Codes(tag) && file[8..8 + |data|] == data && file[12 + |data|..] == rest
  {
    SmallNumbersReadBack(|data|);
    PartsAreFramed(BigEndian(|data|), Codes(tag), data, rest, file);
  }

  lemma FramedChunksAreRead(file: seq<Byte>, length: nat)
    requires IsFramed(file, length)
    ensures ReadChunk(file) == Some(ReadResult(file[4..8], file[8..8 + length], file[12 + length..]))
  {
  }

  /** A chunk reads back, as long as its length fits its field. */
  lemma ChunksReadBack(tag: Tag, data: seq<Byte>, rest: seq<Byte>)
    requires |data| < WORD
    ensures ReadChunk(ChunkBytes(tag, data) + rest) == Some(ReadResult(Codes(tag), data, rest))
  {
    ChunksAreFramed(tag, data, rest, ChunkBytes(tag, data) + rest);
    FramedChunksAreRead(ChunkBytes(tag, data) + rest, |data|);
  }

  lemma DamageStaysPut(file: seq<Byte>, n: nat, i: nat, b: Byte)
    requires |file| >= 12 + n && 4 <= i < 8 + n
    ensures var damaged := file[i := b];
      && damaged[..4] == file[..4] && damaged[8 + n..12 + n] == file[8 + n..12 + n]
      && damaged[4..8 + n] == file[4..8 + n][i - 4 := b]
  {
  }

  lemma UnsoundChunksAreRefused(file: seq<Byte>, length: nat)
    requires |file| >= 12 + length && ReadBigEndian(file[..4]) == length
    requires file[8 + length..12 + length] != Checksum(file[4..8 + length])
    ensures ReadChunk(file) == None
  {
  }

  lemma DamagedFramesAreRefused(file: seq<Byte>, n: nat, i: nat, b: Byte)
    requires IsFramed(file, n) && 4 <= i < 8 + n && b != file[i]
    ensures ReadChunk(file[i := b]) == None
  {
    DamageStaysPut(file, n, i, b);
    var sound := file[4..8 + n];
    OneByteChangesTheChecksum(sound, sound[i - 4 := b], i - 4);
    UnsoundChunksAreRefused(file[i := b], n);
  }

  /** A chunk with any one byte of its tag or data changed is refused. */
  lemma ADamagedChunkIsRefused(tag: Tag, data: seq<Byte>, rest: seq<Byte>, i: nat, b: Byte)
    requires |data| < WORD && 4 <= i < 8 + |data|
    requires b != (ChunkBytes(tag, data) + rest)[i]
    ensures ReadChunk((ChunkBytes(tag, data) + rest)[i := b]) == None
  {
    ChunksAreFramed(tag, data, rest, ChunkBytes(tag, data) + rest);
    DamagedFramesAreRefused(ChunkBytes(tag, data) + rest, |data|, i, b);
  }

  method WriteAt(out: array<Byte>, at: nat, bytes: seq<Byte>)
    requires at + |bytes| <= out.Length
    modifies out
    ensures out[..] == old(out[..at]) + bytes + old(out[at + |bytes|..])
  {
    for i := 0 to |bytes|
      invariant forall j :: 0 <= j < at ==> out[j] == old(out[j])
      invariant forall j :: 0 <= j < i ==> out[at + j] == bytes[j]
      invariant forall j :: at + i <= j < out.Length ==> out[j] == old(out[j])
    {
      out[at + i] := bytes[i];
    }
    assert out[..at] == old(out[..at]) && out[at..at + |bytes|] == bytes;
    assert out[at + |bytes|..] == old(out[at + |bytes|..]);
  }

  /** The tag's character codes, then the data. */
  method TypedData(tag: Tag, data: seq<Byte>) returns (typed: array<Byte>)
    ensures fresh(typed) && typed[..] == Codes(tag) + data
  {
    typed := new Byte[|tag| + |data|];
    for i := 0 to |tag|
      invariant typed[..i] == Codes(tag)[..i]
    {
      typed[i] := tag[i] as int % 256;
    }
    WriteAt(typed, |tag|, data);
    assert typed[..|tag|] == Codes(tag);
  }

  method Assemble(head: seq<Byte>, body: seq<Byte>, tail: seq<Byte>) returns (out: array<Byte>)
    ensures fresh(out) && out[..] == head + body + tail
  {
    out := new Byte[|head| + |body| + |tail|];
    WriteAt(out, 0, head);
    WriteAt(out, |head|, body);
    WriteAt(out, out.Length - |tail|, tail);
  }

  /** `chunk` */
  method Chunk(table: array<bv32>, tag: Tag, data: seq<Byte>) returns (out: array<Byte>)
    requires Crc32.IsTable(table)
    ensures fresh(out) && out[..] == ChunkBytes(tag, data)
  {
    var typed := TypedData(tag, data);
    var crc := Crc32.ComputeCrc(table, Bits(typed[..]));
    out := Assemble(BigEndian(|data|), typed[..], CrcBytes(crc));
  }

  // -------------------------------------------------------------------------
  // Scanlines.
  // -------------------------------------------------------------------------

  lemma Distribute(a: nat, b: nat, c: nat)
    ensures (a + b) * c == a * c + b * c
    ensures a * c >= 0 && b * c >= 0
  {
  }

  lemma RowsFit(y: nat, height: nat, width: nat)
    requires y < height
    ensures 0 <= y * width && y * width + width == (y + 1) * width <= height * width
  {
    Distribute(y, 1, width);
    Distribute(height - (y + 1), y + 1, width);
  }

  function Row(width: nat, height: nat, plane: seq<Byte>, y: nat): (r: seq<Byte>)
    requires |plane| == height * width && y < height
    ensures |r| == width
  {
    RowsFit(y, height, width);
    plane[y * width..(y + 1) * width]
  }

  /** The first `n` scanlines, each after its filter byte 0. */
  function Scanlines(width: nat, height: nat, plane: seq<Byte>, n: nat): (r: seq<Byte>)
    requires |plane| == height * width && n <= height
    ensures |r| == n * (width + 1)
  {
    if n == 0 then [] else Scanlines(width, height, plane, n - 1) + ([0] + Row(width, height, plane, n - 1))
  }

  /** Undo the filters; filter 0, "none", is the only one understood. */
  function Unfilter(width: nat, height: nat, raw: seq<Byte>): Option<seq<Byte>>
    decreases height
  {
    if height == 0 then (if raw == [] then Some([]) else None)
    else if |raw| < width + 1 then None
    else
      var last := |raw| - (width + 1);
      var before := Unfilter(width, height - 1, raw[..last]);
      if before.None? || raw[last] != 0 then None else Some(before.value + raw[last + 1..])
  }

  lemma OneRowMore(width: nat, height: nat, before: seq<Byte>, row: seq<Byte>, planeBefore: seq<Byte>)
    requires height > 0 && |row| == width && Unfilter(width, height - 1, before) == Some(planeBefore)
    ensures Unfilter(width, height, before + ([0] + row)) == Some(planeBefore + row)
  {
    var raw := before + ([0] + row);
    assert |raw| - (width + 1) == |before|;
    assert raw[..|before|] == before && raw[|before|] == 0 && raw[|before| + 1..] == row;
  }

  lemma RowEnds(width: nat, height: nat, plane: seq<Byte>, y: nat)
    requires |plane| == height * width && y < height
    ensures 0 <= y * width <= (y + 1) * width <= |plane|
    ensures plane[..y * width] + Row(width, height, plane, y) == plane[..(y + 1) * width]
  {
    RowsFit(y, height, width);
  }

  lemma {:induction false} ScanlinesUnfilter(width: nat, height: nat, plane: seq<Byte>, n: nat)
    requires |plane| == height * width && n <= height
    ensures n * width <= |plane|
    ensures Unfilter(width, n, Scanlines(width, height, plane, n)) == Some(plane[..n * width])
  {
    if n > 0 {
      ScanlinesUnfilter(width, height, plane, n - 1);
      RowsFit(n - 1, height, width);
      var row := Row(width, height, plane, n - 1);
      OneRowMore(width, n, Scanlines(width, height, plane, n - 1), row, plane[..(n - 1) * width]);
      RowEnds(width, height, plane, n - 1);
    }
  }

  // -------------------------------------------------------------------------
  // Files.
  // -------------------------------------------------------------------------

  type Codec = seq<Byte> -> seq<Byte>

  function Header(width: nat, height: nat): (r: seq<Byte>)
    ensures |r| == 13
  {
    BigEndian(width) + BigEndian(height) + [8, 0, 0, 0, 0]
  }

  /** What `encodePng` writes. */
  function FileOf(width: nat, height: nat, plane: seq<Byte>, deflate: Codec): seq<Byte>
    requires |plane| == height * width
  {
    SIGNATURE + ChunkBytes("IHDR", Header(width, height))
    + ChunkBytes("IDAT", deflate(Scanlines(width, height, plane, height))) + ChunkBytes("IEND", [])
  }

  /** The number four bytes of a file make, the first the most significant. */
  function NumberAt(file: seq<Byte>, at: nat): int
    requires at + 4 <= |file|
  {
    var b0: int, b1: int, b2: int, b3: int := file[at], file[at + 1], file[at + 2], file[at + 3];
    256 * (256 * (256 * b0 + b1) + b2) + b3
  }

  lemma BigEndianNumbers(file: seq<Byte>, at: nat, n: nat)
    requires at + 4 <= |file| && file[at..at + 4] == BigEndian(n) && n < WORD
    ensures NumberAt(file, at) == n
  {
    SmallNumbersReadBack(n);
    assert file[at] == file[at..at + 4][0] && file[at + 1] == file[at..at + 4][1];
    assert file[at + 2] == file[at..at + 4][2] && file[at + 3] == file[at..at + 4][3];
  }

  lemma TagCodes()
    ensures Codes("IHDR") == [73, 72, 68, 82] && Codes("IDAT") == [73, 68, 65, 84] && Codes("IEND") == [73, 69, 78, 68]
  {
  }

  lemma HowAChunkBegins(tag: Tag, data: seq<Byte>)
    requires |data| < WORD
    ensures NumberAt(ChunkBytes(tag, data), 0) == |data|
    ensures ChunkBytes(tag, data)[4..8] == Codes(tag) && ChunkBytes(tag, data)[8..8 + |data|] == data
  {
    var chunk := ChunkBytes(tag, data);
    assert chunk[..4] == BigEndian(|data|);
    BigEndianNumbers(chunk, 0, |data|);
    ChunksAreFramed(tag, data, [], chunk);
  }

  lemma HowAHeaderReads(width: nat, height: nat)
    requires width < WORD && height < WORD
    ensures var ihdr := Header(width, height);
      NumberAt(ihdr, 0) == width && NumberAt(ihdr, 4) == height && ihdr[8..] == [8, 0, 0, 0, 0]
  {
    var ihdr := Header(width, height);
    assert ihdr[0..4] == BigEndian(width) && ihdr[4..8] == BigEndian(height);
    BigEndianNumbers(ihdr, 0, width);
    BigEndianNumbers(ihdr, 4, height);
  }

  lemma FileLayout(first: seq<Byte>, second: seq<Byte>, third: seq<Byte>)
    requires |first| == 25 && |second| >= 12 && |third| == 12
    ensures var file := SIGNATURE + first + second + third;
      && |file| >= 57 && file[..8] == [137, 80, 78, 71, 13, 10, 26, 10]
      && file[8..33] == first && file[37..41] == second[4..8] && file[|file| - 12..] == third
  {
    var file := SIGNATURE + first + second + third;
    assert file == SIGNATURE + (first + (second + third));
  }

  lemma FileLayoutIs(width: nat, height: nat, plane: seq<Byte>, deflate: Codec)
    requires |plane| == height * width
    ensures var file := FileOf(width, height, plane, deflate);
      && |file| >= 57 && file[..8] == [137, 80, 78, 71, 13, 10, 26, 10]
      && file[8..33] == ChunkBytes("IHDR", Header(width, height))
      && file[37..41] == Codes("IDAT") && file[|file| - 12..] == ChunkBytes("IEND", [])
  {
    var idat := ChunkBytes("IDAT", deflate(Scanlines(width, height, plane, height)));
    assert idat[4..8] == Codes("IDAT");
    FileLayout(ChunkBytes("IHDR", Header(width, height)), idat, ChunkBytes("IEND", []));
  }

  /**
   * Every file starts with the eight bytes that make it a PNG and a header chunk
   * of its sizes in 8-bit greyscale, has its data next, and ends with an empty
   * end chunk (sections 3.1, 4.1.1, 4.1.3 and 4.1.4 of RFC 2083).
   */
  lemma HowAFileBeginsAndEnds(width: nat, height: nat, plane: seq<Byte>, deflate: Codec)
    requires |plane| == height * width && width < WORD && height < WORD
    ensures var file := FileOf(width, height, plane, deflate);
      && |file| >= 57 && file[..8] == [137, 80, 78, 71, 13, 10, 26, 10]
      && var header, end := file[8..33], file[|file| - 12..];
      && NumberAt(header, 0) == 13 && header[4..8] == [73, 72, 68, 82]
      && var sizes := header[8..21];
      && NumberAt(sizes, 0) == width && NumberAt(sizes, 4) == height && sizes[8..] == [8, 0, 0, 0, 0]
      && file[37..41] == [73, 68, 65, 84]
      && NumberAt(end, 0) == 0 && end[4..8] == [73, 69, 78, 68]
  {
    TagCodes();
    FileLayoutIs(width, height, plane, deflate);
    HowAChunkBegins("IHDR", Header(width, height));
    HowAHeaderReads(width, height);
    HowAChunkBegins("IEND", []);
  }

  function Concatenated(parts: seq<seq<Byte>>): seq<Byte> {
    if parts == [] then [] else Concatenated(parts[..|parts| - 1]) + parts[|parts| - 1]
  }

  method WriteRow(raw: array<Byte>, at: nat, row: seq<Byte>)
    requires at + 1 + |row| <= raw.Length
    modifies raw
    ensures raw[..at + 1 + |row|] == old(raw[..at]) + ([0] + row)
  {
    WriteAt(raw, at, [0]);
    WriteAt(raw, at + 1, row);
  }

  method FilterRows(width: nat, height: nat, plane: seq<Byte>) returns (raw: array<Byte>)
    requires |plane| == height * width
    ensures fresh(raw) && raw[..] == Scanlines(width, height, plane, height)
  {
    raw := new Byte[height * (width + 1)];
    var at := 0;
    for y := 0 to height
      invariant at == y * (width + 1) <= raw.Length
      invariant raw[..at] == Scanlines(width, height, plane, y)
    {
      RowsFit(y, height, width + 1);
      RowsFit(y, height, width);
      WriteRow(raw, at, plane[y * width..(y + 1) * width]);
      at := at + width + 1;
    }
    assert raw[..raw.Length] == raw[..];
  }

  method JoinParts(parts: seq<seq<Byte>>) returns (png: array<Byte>)
    ensures fresh(png) && png[..] == Concatenated(parts)
  {
    var total := 0;
    for i := 0 to |parts|
      invariant total == |Concatenated(parts[..i])|
    {
      assert parts[..i + 1][..i] == parts[..i];
      total := total + |parts[i]|;
    }
    assert parts[..|parts|] == parts;
    png := new Byte[total];
    var at := 0;
    for i := 0 to |parts|
      invariant at == |Concatenated(parts[..i])| <= png.Length
      invariant png[..at] == Concatenated(parts[..i])
    {
      assert parts[..i + 1][..i] == parts[..i];
      PrefixIsShorter(parts, i + 1);
      ghost var before := png[..at];
      WriteAt(png, at, parts[i]);
      assert png[..at + |parts[i]|] == before + parts[i];
      at := at + |parts[i]|;
    }
    assert png[..png.Length] == png[..];
  }

  lemma {:induction false} PrefixIsShorter(parts: seq<seq<Byte>>, n: nat)
    requires n <= |parts|
    ensures |Concatenated(parts[..n])| <= |Concatenated(parts)|
    decreases |parts| - n
  {
    if n < |parts| {
      PrefixIsShorter(parts, n + 1);
      assert parts[..n + 1][..n] == parts[..n];
    } else {
      assert parts[..n] == parts;
    }
  }

  method MakeHeader(width: nat, height: nat) returns (ihdr: array<Byte>)
    ensures fresh(ihdr) && ihdr[..] == Header(width, height)
  {
    ihdr := new Byte[13];
    WriteAt(ihdr, 0, BigEndian(width));
    WriteAt(ihdr, 4, BigEndian(height));
    ihdr[8], ihdr[9], ihdr[10], ihdr[11], ihdr[12] := 8, 0, 0, 0, 0;
  }

  /** `encodePng` */
  method EncodePng(table: array<bv32>, width: nat, height: nat, plane: seq<Byte>, deflate: Codec)
    returns (png: array<Byte>)
    requires Crc32.IsTable(table) && |plane| == height * width
    ensures fresh(png) && png[..] == FileOf(width, height, plane, deflate)
  {
    var raw := FilterRows(width, height, plane);
    var ihdr := MakeHeader(width, height);
    var first := Chunk(table, "IHDR", ihdr[..]);
    var second := Chunk(table, "IDAT", deflate(raw[..]));
    var third := Chunk(table, "IEND", []);
    var parts := [SIGNATURE, first[..], second[..], third[..]];
    png := JoinParts(parts);
    FourParts(parts);
  }

  lemma FourParts(parts: seq<seq<Byte>>)
    requires |parts| == 4
    ensures Concatenated(parts) == parts[0] + parts[1] + parts[2] + parts[3]
  {
    assert parts[..3][..2] == parts[..2] && parts[..2][..1] == parts[..1] && parts[..1][..0] == [];
    assert Concatenated(parts[..1]) == parts[0];
    assert Concatenated(parts[..2]) == parts[0] + parts[1];
    assert Concatenated(parts[..3]) == parts[0] + parts[1] + parts[2];
  }

  datatype Image = Image(width: nat, height: nat, plane: seq<Byte>)

  /** The data of an IHDR and an IDAT chunk that, with the closing IEND, are all of the file. */
  function ReadFile(file: seq<Byte>): Option<(seq<Byte>, seq<Byte>)> {
    if !(SIGNATURE <= file) then None
    else
      var first := ReadChunk(file[8..]);
      if first.None? || first.value.tag != Codes("IHDR") then None
      else
        var second := ReadChunk(first.value.rest);
        if second.None? || second.value.tag != Codes("IDAT") then None
        else if ReadChunk(second.value.rest) != Some(ReadResult(Codes("IEND"), [], [])) then None
        else Some((first.value.data, second.value.data))
  }

  /** Width and height, when the rest of the header says 8-bit greyscale, not interlaced. */
  function ReadHeader(data: seq<Byte>): Option<(nat, nat)> {
    if |data| != 13 || data[8..] != [8, 0, 0, 0, 0] then None
    else Some((ReadBigEndian(data[..4]), ReadBigEndian(data[4..8])))
  }

  type Inflate = seq<Byte> -> Option<seq<Byte>>

  /** A decoder for 8-bit greyscale files of one IDAT chunk; None for anything else. */
  function Decode(file: seq<Byte>, inflate: Inflate): Option<Image> {
    var parts := ReadFile(file);
    if parts.None? then None else DecodeParts(parts.value.0, parts.value.1, inflate)
  }

  function DecodeParts(ihdr: seq<Byte>, idat: seq<Byte>, inflate: Inflate): Option<Image> {
    var size := ReadHeader(ihdr);
    var raw := inflate(idat);
    if size.None? || raw.None? then None
    else
      var plane := Unfilter(size.value.0, size.value.1, raw.value);
      if plane.None? then None else Some(Image(size.value.0, size.value.1, plane.value))
  }

  lemma AfterTheSignature(a: seq<Byte>, b: seq<Byte>, c: seq<Byte>)
    ensures SIGNATURE <= SIGNATURE + a + b + c && (SIGNATURE + a + b + c)[8..] == a + (b + c)
  {
    assert SIGNATURE + a + b + c == SIGNATURE + (a + (b + c));
  }

  lemma ReadsThreeChunks(file: seq<Byte>, ihdr: seq<Byte>, idat: seq<Byte>, afterIhdr: seq<Byte>, afterIdat: seq<Byte>)
    requires SIGNATURE <= file && ReadChunk(file[8..]) == Some(ReadResult(Codes("IHDR"), ihdr, afterIhdr))
    requires ReadChunk(afterIhdr) == Some(ReadResult(Codes("IDAT"), idat, afterIdat))
    requires ReadChunk(afterIdat) == Some(ReadResult(Codes("IEND"), [], []))
    ensures ReadFile(file) == Some((ihdr, idat))
  {
  }

  lemma ThreeFramesReadBack(first: seq<Byte>, second: seq<Byte>, end: seq<Byte>, ihdr: seq<Byte>, idat: seq<Byte>)
    requires ReadChunk(first + (second + end)) == Some(ReadResult(Codes("IHDR"), ihdr, second + end))
    requires ReadChunk(second + end) == Some(ReadResult(Codes("IDAT"), idat, end))
    requires ReadChunk(end) == Some(ReadResult(Codes("IEND"), [], []))
    ensures ReadFile(SIGNATURE + first + second + end) == Some((ihdr, idat))
  {
    AfterTheSignature(first, second, end);
    ReadsThreeChunks(SIGNATURE + first + second + end, ihdr, idat, second + end, end);
  }

  lemma FilesReadBack(ihdr: seq<Byte>, idat: seq<Byte>)
    requires |ihdr| < WORD && |idat| < WORD
    ensures ReadFile(SIGNATURE + ChunkBytes("IHDR", ihdr) + ChunkBytes("IDAT", idat) + ChunkBytes("IEND", []))
      == Some((ihdr, idat))
  {
    var first, second, end := ChunkBytes("IHDR", ihdr), ChunkBytes("IDAT", idat), ChunkBytes("IEND", []);
    ChunksReadBack("IHDR", ihdr, second + end);
    ChunksReadBack("IDAT", idat, end);
    ChunksReadBack("IEND", [], []);
    assert end + [] == end;
    ThreeFramesReadBack(first, second, end, ihdr, idat);
  }

  lemma HeadersReadBack(width: nat, height: nat)
    requires width < WORD && height < WORD
    ensures ReadHeader(Header(width, height)) == Some((width, height))
  {
    SmallNumbersReadBack(width);
    SmallNumbersReadBack(height);
    var header := Header(width, height);
    assert header[..4] == BigEndian(width) && header[4..8] == BigEndian(height) && header[8..] == [8, 0, 0, 0, 0];
  }

  lemma PartsReadBack(width: nat, height: nat, plane: seq<Byte>, raw: seq<Byte>, idat: seq<Byte>, inflate: Inflate)
    requires width < WORD && height < WORD
    requires inflate(idat) == Some(raw) && Unfilter(width, height, raw) == Some(plane)
    ensures DecodeParts(Header(width, height), idat, inflate) == Some(Image(width, height, plane))
  {
    HeadersReadBack(width, height);
  }

  /** Decoding what `encodePng` wrote gives back the same width, height and plane. */
  lemma PngsReadBack(width: nat, height: nat, plane: seq<Byte>, deflate: Codec, inflate: Inflate)
    requires |plane| == height * width && width < WORD && height < WORD
    requires forall raw :: inflate(deflate(raw)) == Some(raw)
    requires |deflate(Scanlines(width, height, plane, height))| < WORD
    ensures Decode(FileOf(width, height, plane, deflate), inflate) == Some(Image(width, height, plane))
  {
    var raw := Scanlines(width, height, plane, height);
    FilesReadBack(Header(width, height), deflate(raw));
    ScanlinesUnfilter(width, height, plane, height);
    assert plane[..height * width] == plane;
    PartsReadBack(width, height, plane, raw, deflate(raw), inflate);
  }
}
