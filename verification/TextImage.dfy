/**
 * `renderTextPng` of `evals/fixtures/transcription.ts`: lines of text drawn,
 * cell by cell, into a plane of pixels, and read back from it.
 */
module TextImage {
  import opened Prelude
  import opened Font
  import opened Png
  import Crc32

  const SCALE: int := 3
  const MARGIN: int := 8

  /** From one glyph to the next, and from one line to the next, in pixels. */
  const COLUMN_PITCH: int := 18
  const LINE_PITCH: int := 30

  const GLYPH_PIXELS_WIDE: int := 15
  const GLYPH_PIXELS_HIGH: int := 21

  const GROUND: Byte := 0xf5
  const INK: Byte := 0x14

  /** A set of pixels, by row and column. */
  type Pixels = (int, int) -> bool

  predicate IsDrawableText(lines: seq<string>) {
    forall i :: 0 <= i < |lines| ==> IsDrawableLine(lines[i])
  }

  predicate IsDrawableLine(line: string) {
    forall k :: 0 <= k < |line| ==> IsDrawable(line[k])
  }

  function Columns(lines: seq<string>): (n: nat)
    ensures n >= 1 && forall i :: 0 <= i < |lines| ==> |lines[i]| <= n
  {
    if lines == [] then 1 else Max(Columns(lines[..|lines| - 1]), |lines[|lines| - 1]|)
  }

  function WidthFor(columns: nat): nat {
    MARGIN * 2 + columns * COLUMN_PITCH
  }

  function HeightFor(lines: nat): nat {
    MARGIN * 2 + lines * LINE_PITCH - 9
  }

  // -------------------------------------------------------------------------
  // Which pixels are ink, read off their coordinates.
  // -------------------------------------------------------------------------

  /** The square of one cell. */
  function CellPixels(top: int, left: int): Pixels {
    (y: int, x: int) => top <= y < top + SCALE && left <= x < left + SCALE
  }

  /** The set cells among the first `n` of a row. */
  function RowPixels(row: string, top: int, left: int, n: nat): Pixels
    requires n <= |row|
  {
    (y: int, x: int) =>
      top <= y < top + SCALE && 0 <= (x - left) / SCALE < n && row[(x - left) / SCALE] == '#'
  }

  /** The set cells among the first `n` rows of a glyph. */
  function GridPixels(rows: seq<string>, top: int, left: int, n: nat): Pixels
    requires IsGlyph(rows) && n <= GLYPH_HEIGHT
  {
    (y: int, x: int) =>
      && top <= y < top + n * SCALE && left <= x < left + GLYPH_PIXELS_WIDE
      && rows[(y - top) / SCALE][(x - left) / SCALE] == '#'
  }

  /** The set cells of a character. */
  function GlyphPixels(character: char, top: int, left: int): Pixels {
    (y: int, x: int) =>
      && top <= y < top + GLYPH_PIXELS_HIGH && left <= x < left + GLYPH_PIXELS_WIDE
      && Cell(character, (y - top) / SCALE, (x - left) / SCALE)
  }

  /** The set cells of the first `n` characters of a line. */
  function LinePixels(line: string, top: int, n: nat): Pixels
    requires n <= |line|
  {
    (y: int, x: int) =>
      var k := (x - MARGIN) / COLUMN_PITCH;
      && top <= y < top + GLYPH_PIXELS_HIGH && 0 <= k < n && (x - MARGIN) % COLUMN_PITCH < GLYPH_PIXELS_WIDE
      && Cell(line[k], (y - top) / SCALE, (x - MARGIN) % COLUMN_PITCH / SCALE)
  }

  /** The set cells of the first `n` lines. */
  function TextPixels(lines: seq<string>, n: nat): Pixels
    requires n <= |lines|
  {
    (y: int, x: int) =>
      var i := (y - MARGIN) / LINE_PITCH;
      0 <= i < n && LinePixels(lines[i], MARGIN + i * LINE_PITCH, |lines[i]|)(y, x)
  }

  // -------------------------------------------------------------------------
  // Planes.
  // -------------------------------------------------------------------------

  function At(width: nat, y: nat, x: nat): nat {
    y * width + x
  }

  predicate IsIn(width: nat, height: nat, y: int, x: int) {
    0 <= y < height && 0 <= x < width
  }

  lemma InsideThePlane(width: nat, height: nat, y: nat, x: nat)
    requires IsIn(width, height, y, x)
    ensures At(width, y, x) < height * width
  {
    RowsFit(y, height, width);
  }

  lemma PixelsDoNotCollide(width: nat, y: nat, x: nat, y': nat, x': nat)
    requires x < width && x' < width && At(width, y, x) == At(width, y', x')
    ensures y == y' && x == x'
  {
    if y < y' {
      RowsFit(y, y', width);
    } else if y' < y {
      RowsFit(y', y, width);
    }
  }

  function PixelOf(plane: seq<Byte>, width: nat, height: nat, y: nat, x: nat): Byte
    requires |plane| == height * width && IsIn(width, height, y, x)
  {
    InsideThePlane(width, height, y, x);
    plane[At(width, y, x)]
  }

  /** `after` is `before` with exactly these pixels inked. */
  ghost predicate Inks(before: seq<Byte>, after: seq<Byte>, width: nat, height: nat, pixels: Pixels) {
    && |before| == |after| == height * width
    && forall y: nat, x: nat :: IsIn(width, height, y, x) ==>
        PixelOf(after, width, height, y, x) == if pixels(y, x) then INK else PixelOf(before, width, height, y, x)
  }

  lemma InksAddUp(before: seq<Byte>, between: seq<Byte>, after: seq<Byte>, width: nat, height: nat,
                  first: Pixels, second: Pixels, both: Pixels)
    requires Inks(before, between, width, height, first) && Inks(between, after, width, height, second)
    requires forall y: nat, x: nat :: IsIn(width, height, y, x) ==> (both(y, x) <==> first(y, x) || second(y, x))
    ensures Inks(before, after, width, height, both)
  {
  }

  lemma OnePixel(before: seq<Byte>, width: nat, height: nat, y: nat, x: nat, pixels: Pixels)
    requires |before| == height * width && IsIn(width, height, y, x)
    requires forall y': nat, x': nat :: pixels(y', x') <==> y' == y && x' == x
    ensures At(width, y, x) < |before|
    ensures Inks(before, before[At(width, y, x) := INK], width, height, pixels)
  {
    InsideThePlane(width, height, y, x);
    var after := before[At(width, y, x) := INK];
    forall y': nat, x': nat | IsIn(width, height, y', x')
      ensures PixelOf(after, width, height, y', x') == if pixels(y', x') then
        INK else PixelOf(before, width, height, y', x') {
      InsideThePlane(width, height, y', x');
      if At(width, y', x') == At(width, y, x) {
        PixelsDoNotCollide(width, y', x', y, x);
      }
    }
  }

  lemma SamePixels(before: seq<Byte>, after: seq<Byte>, width: nat, height: nat, pixels: Pixels, others: Pixels)
    requires Inks(before, after, width, height, pixels)
    requires forall y: nat, x: nat :: IsIn(width, height, y, x) ==> (pixels(y, x) <==> others(y, x))
    ensures Inks(before, after, width, height, others)
  {
  }

  function NoPixels(): Pixels {
    (y: int, x: int) => false
  }

  lemma NothingInked(plane: seq<Byte>, width: nat, height: nat)
    requires |plane| == height * width
    ensures Inks(plane, plane, width, height, NoPixels())
  {
  }

  // -------------------------------------------------------------------------
  // The drawing loops, from the inside out.
  // -------------------------------------------------------------------------

  function PixelAlone(y: int, x: int): Pixels {
    (y': int, x': int) => y' == y && x' == x
  }

  function CellSoFar(top: int, left: int, dy: int, dx: int): Pixels {
    (y: int, x: int) => left <= x < left + SCALE && (top <= y < top + dy || (y == top + dy && x < left + dx))
  }

  method DrawPixel(plane: array<Byte>, width: nat, height: nat, y: nat, x: nat)
    requires plane.Length == height * width && IsIn(width, height, y, x)
    modifies plane
    ensures Inks(old(plane[..]), plane[..], width, height, PixelAlone(y, x))
  {
    InsideThePlane(width, height, y, x);
    OnePixel(plane[..], width, height, y, x, PixelAlone(y, x));
    plane[y * width + x] := INK;
    assert plane[..] == old(plane[..])[At(width, y, x) := INK];
  }

  method DrawCell(plane: array<Byte>, width: nat, height: nat, top: nat, left: nat)
    requires plane.Length == height * width && top + SCALE <= height && left + SCALE <= width
    modifies plane
    ensures Inks(old(plane[..]), plane[..], width, height, CellPixels(top, left))
  {
    ghost var start := plane[..];
    NothingInked(start, width, height);
    SamePixels(start, start, width, height, NoPixels(), CellSoFar(top, left, 0, 0));
    for dy := 0 to SCALE
      invariant Inks(start, plane[..], width, height, CellSoFar(top, left, dy, 0))
    {
      for dx := 0 to SCALE
        invariant Inks(start, plane[..], width, height, CellSoFar(top, left, dy, dx))
      {
        ghost var before := plane[..];
        DrawPixel(plane, width, height, top + dy, left + dx);
        InksAddUp(start, before, plane[..], width, height, CellSoFar(top, left, dy, dx),
                  PixelAlone(top + dy, left + dx), CellSoFar(top, left, dy, dx + 1));
      }
      SamePixels(start, plane[..], width, height, CellSoFar(top, left, dy, SCALE), CellSoFar(top, left, dy + 1, 0));
    }
    SamePixels(start, plane[..], width, height, CellSoFar(top, left, SCALE, 0), CellPixels(top, left));
  }

  lemma RowOneMore(row: string, top: int, left: int, n: nat, y: int, x: int)
    requires n < |row|
    ensures RowPixels(row, top, left, n + 1)(y, x) <==>
      RowPixels(row, top, left, n)(y, x) || (row[n] == '#' && CellPixels(top, left + n * SCALE)(y, x))
  {
  }

  method DrawRow(plane: array<Byte>, width: nat, height: nat, row: string, top: nat, left: nat)
    requires plane.Length == height * width && top + SCALE <= height && left + |row| * SCALE <= width
    modifies plane
    ensures Inks(old(plane[..]), plane[..], width, height, RowPixels(row, top, left, |row|))
  {
    ghost var start := plane[..];
    NothingInked(start, width, height);
    SamePixels(start, start, width, height, NoPixels(), RowPixels(row, top, left, 0));
    for cell := 0 to |row|
      invariant Inks(start, plane[..], width, height, RowPixels(row, top, left, cell))
    {
      ghost var before := plane[..];
      forall y: nat, x: nat {
        RowOneMore(row, top, left, cell, y, x);
      }
      if row[cell] != '#' {
        SamePixels(start, before, width, height, RowPixels(row, top, left, cell), RowPixels(row, top, left, cell + 1));
        continue;
      }
      DrawCell(plane, width, height, top, left + cell * SCALE);
      InksAddUp(start, before, plane[..], width, height, RowPixels(row, top, left, cell),
                CellPixels(top, left + cell * SCALE), RowPixels(row, top, left, cell + 1));
    }
  }

  lemma GridOneMore(rows: seq<string>, top: int, left: int, n: nat, y: int, x: int)
    requires IsGlyph(rows) && n < GLYPH_HEIGHT
    ensures GridPixels(rows, top, left, n + 1)(y, x) <==>
      GridPixels(rows, top, left, n)(y, x) || RowPixels(rows[n], top + n * SCALE, left, GLYPH_WIDTH)(y, x)
  {
    assert 0 <= (x - left) / SCALE < GLYPH_WIDTH <==> left <= x < left + GLYPH_PIXELS_WIDE;
    if top + n * SCALE <= y < top + (n + 1) * SCALE {
      assert (y - top) / SCALE == n;
    }
  }

  method DrawGrid(plane: array<Byte>, width: nat, height: nat, rows: seq<string>, top: nat, left: nat)
    requires plane.Length == height * width && IsGlyph(rows)
    requires top + GLYPH_PIXELS_HIGH <= height && left + GLYPH_PIXELS_WIDE <= width
    modifies plane
    ensures Inks(old(plane[..]), plane[..], width, height, GridPixels(rows, top, left, GLYPH_HEIGHT))
  {
    ghost var start := plane[..];
    NothingInked(start, width, height);
    SamePixels(start, start, width, height, NoPixels(), GridPixels(rows, top, left, 0));
    for row := 0 to |rows|
      invariant Inks(start, plane[..], width, height, GridPixels(rows, top, left, row))
    {
      ghost var before := plane[..];
      DrawRow(plane, width, height, rows[row], top + row * SCALE, left);
      forall y: nat, x: nat {
        GridOneMore(rows, top, left, row, y, x);
      }
      InksAddUp(start, before, plane[..], width, height, GridPixels(rows, top, left, row),
                RowPixels(rows[row], top + row * SCALE, left, GLYPH_WIDTH), GridPixels(rows, top, left, row + 1));
    }
  }

  lemma CellOfRows(character: char, rows: seq<string>, row: int, column: int)
    requires GlyphOf(character) == Some(rows) && IsGlyph(rows) && 0 <= row < GLYPH_HEIGHT && 0 <= column < GLYPH_WIDTH
    ensures Cell(character, row, column) <==> rows[row][column] == '#'
  {
  }

  lemma GridIsGlyph(character: char, rows: seq<string>, top: int, left: int, y: int, x: int)
    requires GlyphOf(character) == Some(rows) && IsGlyph(rows)
    ensures GridPixels(rows, top, left, GLYPH_HEIGHT)(y, x) <==> GlyphPixels(character, top, left)(y, x)
  {
    if top <= y < top + GLYPH_PIXELS_HIGH && left <= x < left + GLYPH_PIXELS_WIDE {
      CellOfRows(character, rows, (y - top) / SCALE, (x - left) / SCALE);
    }
  }

  method DrawGlyph(plane: array<Byte>, width: nat, height: nat, character: char, top: nat, left: nat)
    requires plane.Length == height * width && IsDrawable(character)
    requires top + GLYPH_PIXELS_HIGH <= height && left + GLYPH_PIXELS_WIDE <= width
    modifies plane
    ensures Inks(old(plane[..]), plane[..], width, height, GlyphPixels(character, top, left))
  {
    GlyphShape(character);
    var rows := GlyphOf(character).value;
    ghost var start := plane[..];
    DrawGrid(plane, width, height, rows, top, left);
    forall y: nat, x: nat {
      GridIsGlyph(character, rows, top, left, y, x);
    }
    SamePixels(start, plane[..], width, height, GridPixels(rows, top, left, GLYPH_HEIGHT), GlyphPixels(character,
      top, left));
  }

  lemma LineOneMore(line: string, top: int, n: nat, y: int, x: int)
    requires n < |line|
    ensures LinePixels(line, top, n + 1)(y, x) <==>
      || LinePixels(line, top, n)(y, x)
      || GlyphPixels(line[n], top, MARGIN + n * COLUMN_PITCH)(y, x)
  {
    var left := MARGIN + n * COLUMN_PITCH;
    if left <= x < left + GLYPH_PIXELS_WIDE {
      assert (x - MARGIN) / COLUMN_PITCH == n && (x - MARGIN) % COLUMN_PITCH == x - left;
    }
  }

  /** None when every character could be drawn; the first one that could not otherwise. */
  method DrawLine(plane: array<Byte>, width: nat, height: nat, line: string, top: nat) returns (fault: Option<char>)
    requires plane.Length == height * width
    requires top + GLYPH_PIXELS_HIGH <= height && MARGIN + |line| * COLUMN_PITCH <= width
    modifies plane
    ensures fault.None? <==> IsDrawableLine(line)
    ensures fault.None? ==> Inks(old(plane[..]), plane[..], width, height, LinePixels(line, top, |line|))
  {
    ghost var start := plane[..];
    NothingInked(start, width, height);
    SamePixels(start, start, width, height, NoPixels(), LinePixels(line, top, 0));
    for k := 0 to |line|
      invariant forall j :: 0 <= j < k ==> IsDrawable(line[j])
      invariant Inks(start, plane[..], width, height, LinePixels(line, top, k))
    {
      if GlyphOf(line[k]).None? {
        return Some(line[k]);
      }
      ghost var before := plane[..];
      DrawGlyph(plane, width, height, line[k], top, MARGIN + k * COLUMN_PITCH);
      forall y: nat, x: nat {
        LineOneMore(line, top, k, y, x);
      }
      InksAddUp(start, before, plane[..], width, height, LinePixels(line, top, k),
                GlyphPixels(line[k], top, MARGIN + k * COLUMN_PITCH), LinePixels(line, top, k + 1));
    }
    fault := None;
  }

  lemma TextOneMore(lines: seq<string>, n: nat, y: int, x: int)
    requires n < |lines|
    ensures TextPixels(lines, n + 1)(y, x) <==>
      TextPixels(lines, n)(y, x) || LinePixels(lines[n], MARGIN + n * LINE_PITCH, |lines[n]|)(y, x)
  {
    var top := MARGIN + n * LINE_PITCH;
    if top <= y < top + GLYPH_PIXELS_HIGH {
      assert (y - MARGIN) / LINE_PITCH == n;
    }
  }

  lemma TextGrows(start: seq<Byte>, before: seq<Byte>, after: seq<Byte>, width: nat, height: nat, lines: seq<string>,
      n: nat)
    requires n < |lines| && Inks(start, before, width, height, TextPixels(lines, n))
    requires Inks(before, after, width, height, LinePixels(lines[n], MARGIN + n * LINE_PITCH, |lines[n]|))
    ensures Inks(start, after, width, height, TextPixels(lines, n + 1))
  {
    forall y: nat, x: nat {
      TextOneMore(lines, n, y, x);
    }
    InksAddUp(start, before, after, width, height, TextPixels(lines, n),
              LinePixels(lines[n], MARGIN + n * LINE_PITCH, |lines[n]|), TextPixels(lines, n + 1));
  }

  lemma LinesFit(lines: nat, n: nat)
    requires n < lines
    ensures MARGIN + n * LINE_PITCH + GLYPH_PIXELS_HIGH <= HeightFor(lines)
  {
  }

  lemma DrawableOneMore(lines: seq<string>, n: nat)
    requires n < |lines|
    ensures IsDrawableText(lines[..n + 1]) <==> IsDrawableText(lines[..n]) && IsDrawableLine(lines[n])
    ensures IsDrawableText(lines) ==> IsDrawableLine(lines[n])
  {
    var upTo := lines[..n + 1];
    assert upTo[n] == lines[n];
    assert forall i :: 0 <= i < n ==> upTo[i] == lines[..n][i];
  }

  method DrawText(plane: array<Byte>, width: nat, height: nat, lines: seq<string>) returns (fault: Option<char>)
    requires plane.Length == height * width && height == HeightFor(|lines|)
    requires forall i :: 0 <= i < |lines| ==> MARGIN + |lines[i]| * COLUMN_PITCH <= width
    modifies plane
    ensures fault.None? <==> IsDrawableText(lines)
    ensures fault.None? ==> Inks(old(plane[..]), plane[..], width, height, TextPixels(lines, |lines|))
  {
    ghost var start := plane[..];
    NothingInked(start, width, height);
    SamePixels(start, start, width, height, NoPixels(), TextPixels(lines, 0));
    for i := 0 to |lines|
      invariant IsDrawableText(lines[..i])
      invariant Inks(start, plane[..], width, height, TextPixels(lines, i))
    {
      ghost var before := plane[..];
      DrawableOneMore(lines, i);
      LinesFit(|lines|, i);
      fault := DrawLine(plane, width, height, lines[i], MARGIN + i * LINE_PITCH);
      if fault.Some? {
        return;
      }
      TextGrows(start, before, plane[..], width, height, lines, i);
    }
    assert lines[..|lines|] == lines;
    fault := None;
  }

  /** A pixel is ink exactly when the text has a set cell there, and ground otherwise. */
  ghost predicate IsPicture(lines: seq<string>, plane: seq<Byte>) {
    var width, height := WidthFor(Columns(lines)), HeightFor(|lines|);
    && |plane| == height * width
    && forall y: nat, x: nat :: IsIn(width, height, y, x) ==>
        PixelOf(plane, width, height, y, x) == if TextPixels(lines, |lines|)(y, x) then INK else GROUND
  }

  lemma InkedGroundIsAPicture(lines: seq<string>, ground: seq<Byte>, plane: seq<Byte>)
    requires forall j :: 0 <= j < |ground| ==> ground[j] == GROUND
    requires Inks(ground, plane, WidthFor(Columns(lines)), HeightFor(|lines|), TextPixels(lines, |lines|))
    ensures IsPicture(lines, plane)
  {
    var width, height := WidthFor(Columns(lines)), HeightFor(|lines|);
    forall y: nat, x: nat | IsIn(width, height, y, x) ensures PixelOf(ground, width, height, y, x) == GROUND {
      InsideThePlane(width, height, y, x);
    }
  }

  /** The pixel lies in the square of a set cell: of a character of a line, and of a row and column of its glyph. */
  predicate IsSet(lines: seq<string>, y: int, x: int, i: int, k: int, row: int, column: int) {
    && 0 <= i < |lines| && 0 <= k < |lines[i]| && 0 <= row < 7 && 0 <= column < 5
    && Cell(lines[i][k], row, column)
    && 0 <= y - (8 + 30 * i + 3 * row) < 3 && 0 <= x - (8 + 18 * k + 3 * column) < 3
  }

  ghost predicate IsInked(lines: seq<string>, y: int, x: int) {
    exists i, k, row, column :: IsSet(lines, y, x, i, k, row, column)
  }

  lemma InkIsInASquare(lines: seq<string>, y: nat, x: nat)
    requires TextPixels(lines, |lines|)(y, x)
    ensures IsInked(lines, y, x)
  {
    var i, k := (y - 8) / 30, (x - 8) / 18;
    assert IsSet(lines, y, x, i, k, (y - 8 - 30 * i) / 3, (x - 8 - 18 * k) / 3);
  }

  lemma SquaresAreInk(lines: seq<string>, y: nat, x: nat, i: int, k: int, row: int, column: int)
    requires IsSet(lines, y, x, i, k, row, column)
    ensures TextPixels(lines, |lines|)(y, x)
  {
    RowCoordinates(y, i, row);
    ColumnCoordinates(x, k, column);
    LinesAtTheirOwnHeight(lines, y, x, i);
  }

  lemma RowCoordinates(y: nat, i: int, row: int)
    requires 0 <= i && 0 <= row < 7 && 0 <= y - (8 + 30 * i + 3 * row) < 3
    ensures (y - 8) / 30 == i && 0 <= y - (8 + 30 * i) < 21 && (y - (8 + 30 * i)) / 3 == row
  {
  }

  lemma ColumnCoordinates(x: nat, k: int, column: int)
    requires 0 <= k && 0 <= column < 5 && 0 <= x - (8 + 18 * k + 3 * column) < 3
    ensures (x - 8) / 18 == k && (x - 8) % 18 < 15 && (x - 8) % 18 / 3 == column
  {
  }

  lemma LinesAtTheirOwnHeight(lines: seq<string>, y: nat, x: nat, i: nat)
    requires i < |lines| && (y - 8) / 30 == i
    ensures TextPixels(lines, |lines|)(y, x) <==> LinePixels(lines[i], 8 + 30 * i, |lines[i]|)(y, x)
  {
  }

  /** Every pixel of a picture is 20 in the square of a set cell and 245 anywhere else. */
  lemma WhatAPixelShows(lines: seq<string>, plane: seq<Byte>, y: nat, x: nat)
    requires IsPicture(lines, plane) && IsIn(WidthFor(Columns(lines)), HeightFor(|lines|), y, x)
    ensures PixelOf(plane, WidthFor(Columns(lines)), HeightFor(|lines|), y, x) ==
      if IsInked(lines, y, x) then 20 else 245
  {
    if TextPixels(lines, |lines|)(y, x) {
      InkIsInASquare(lines, y, x);
    }
    if IsInked(lines, y, x) {
      var i, k, row, column :| IsSet(lines, y, x, i, k, row, column);
      SquaresAreInk(lines, y, x, i, k, row, column);
    }
  }

  lemma {:induction false} ColumnsAreTheLongest(lines: seq<string>)
    ensures Columns(lines) == 1 || exists i :: 0 <= i < |lines| && |lines[i]| == Columns(lines)
  {
    if lines != [] {
      var last := |lines| - 1;
      ColumnsAreTheLongest(lines[..last]);
      assert forall i :: 0 <= i < last ==> lines[..last][i] == lines[i];
    }
  }

  /** A picture has room for its lines and for the longest of them, at least one character, and no more. */
  lemma TheSizeOfAPicture(lines: seq<string>, plane: seq<Byte>)
    requires IsPicture(lines, plane)
    ensures exists longest ::
      && (forall i :: 0 <= i < |lines| ==> |lines[i]| <= longest)
      && (longest == 1 || exists i :: 0 <= i < |lines| && |lines[i]| == longest)
      && WidthFor(Columns(lines)) == 8 + 18 * longest + 8
      && HeightFor(|lines|) == 8 + 30 * |lines| - 9 + 8
      && |plane| == HeightFor(|lines|) * WidthFor(Columns(lines))
  {
    ColumnsAreTheLongest(lines);
    assert WidthFor(Columns(lines)) == 8 + 18 * Columns(lines) + 8;
  }

  method CountColumns(lines: seq<string>) returns (columns: nat)
    ensures columns == Columns(lines)
  {
    columns := 1;
    for i := 0 to |lines|
      invariant columns == Columns(lines[..i])
    {
      assert lines[..i + 1][..i] == lines[..i];
      columns := Max(columns, |lines[i]|);
    }
    assert lines[..|lines|] == lines;
  }

  lemma ColumnsFit(lines: seq<string>)
    ensures forall i :: 0 <= i < |lines| ==> MARGIN + |lines[i]| * COLUMN_PITCH <= WidthFor(Columns(lines))
  {
  }

  /** `renderTextPng`: the file of a picture of the lines, or a character the font cannot draw. */
  method RenderTextPng(table: array<bv32>, lines: seq<string>, deflate: Codec)
    returns (r: Result<array<Byte>, char>, ghost plane: seq<Byte>)
    requires Crc32.IsTable(table)
    ensures r.Ok? <==> IsDrawableText(lines)
    ensures r.Ok? ==> fresh(r.value) && IsPicture(lines, plane)
    ensures r.Ok? ==> r.value[..] == FileOf(WidthFor(Columns(lines)), HeightFor(|lines|), plane, deflate)
  {
    var columns := CountColumns(lines);
    var width, height := WidthFor(columns), HeightFor(|lines|);
    var pixels := new Byte[height * width](_ => GROUND);
    ghost var ground := pixels[..];
    ColumnsFit(lines);
    var fault := DrawText(pixels, width, height, lines);
    plane := pixels[..];
    if fault.Some? {
      return Err(fault.value), plane;
    }
    InkedGroundIsAPicture(lines, ground, plane);
    var png := EncodePng(table, width, height, pixels[..], deflate);
    r := Ok(png);
  }

  // -------------------------------------------------------------------------
  // Reading back.
  // -------------------------------------------------------------------------

  /** The cells at column `k` of line `i` of an image. */
  function CellsAt(image: Image, i: nat, k: nat): (int, int) -> bool
    requires |image.plane| == image.height * image.width
  {
    (row: int, column: int) =>
      var y, x := MARGIN + i * LINE_PITCH + row * SCALE, MARGIN + k * COLUMN_PITCH + column * SCALE;
      IsIn(image.width, image.height, y, x) && PixelOf(image.plane, image.width, image.height, y, x) == INK
  }

  function ReadLine(image: Image, i: nat, columns: nat): (r: string)
    requires |image.plane| == image.height * image.width
    ensures |r| == columns
  {
    seq(columns, k requires 0 <= k < columns => Recognise(CellsAt(image, i, k)))
  }

  predicate CanRead(image: Image) {
    |image.plane| == image.height * image.width && image.width >= MARGIN * 2 && image.height >= 7
  }

  /** As many lines and columns as the image has room for. */
  function ReadText(image: Image): (r: seq<string>)
    requires CanRead(image)
  {
    var lines, columns := (image.height - 7) / LINE_PITCH, (image.width - MARGIN * 2) / COLUMN_PITCH;
    seq(lines, i requires 0 <= i < lines => ReadLine(image, i, columns))
  }

  /** The character at a column; blank past the end of the line. */
  function CharacterAt(line: string, k: nat): char {
    if k < |line| then line[k] else ' '
  }

  function Padded(line: string, columns: nat): (r: string)
    ensures |r| == columns
  {
    seq(columns, k requires 0 <= k < columns => CharacterAt(line, k))
  }

  function WithoutTrailingSpaces(line: string): string {
    if line == "" || line[|line| - 1] != ' ' then line else WithoutTrailingSpaces(line[..|line| - 1])
  }

  /** What is taken off is spaces, and all there are. */
  lemma {:induction false} OnlySpacesAreTakenOff(line: string)
    ensures var kept := WithoutTrailingSpaces(line);
      && kept <= line && (forall i :: |kept| <= i < |line| ==> line[i] == ' ')
      && (kept == "" || kept[|kept| - 1] != ' ')
  {
    if line != "" && line[|line| - 1] == ' ' {
      OnlySpacesAreTakenOff(line[..|line| - 1]);
    }
  }

  lemma {:induction false} PaddingIsTrailingSpace(line: string, columns: nat)
    requires |line| <= columns
    ensures WithoutTrailingSpaces(Padded(line, columns)) == WithoutTrailingSpaces(line)
    decreases columns
  {
    if columns == |line| {
      assert Padded(line, columns) == line;
    } else {
      PaddingIsTrailingSpace(line, columns - 1);
      assert Padded(line, columns)[..columns - 1] == Padded(line, columns - 1);
    }
  }

  lemma BlankCells(row: int, column: int)
    ensures !Cell(' ', row, column)
  {
  }

  /** Where a cell is drawn, its coordinates say which line, column and cell it is. */
  lemma TextAtACell(lines: seq<string>, i: nat, k: nat, row: int, column: int)
    requires i < |lines| && 0 <= row < GLYPH_HEIGHT && 0 <= column < GLYPH_WIDTH
    ensures TextPixels(lines, |lines|)(MARGIN + i * LINE_PITCH + row * SCALE,
      MARGIN + k * COLUMN_PITCH + column * SCALE) <==>
      k < |lines[i]| && Cell(lines[i][k], row, column)
  {
    CellCoordinates(i, k, row, column);
  }

  lemma CellCoordinates(i: nat, k: nat, row: int, column: int)
    requires 0 <= row < GLYPH_HEIGHT && 0 <= column < GLYPH_WIDTH
    ensures var y, x := i * LINE_PITCH + row * SCALE, k * COLUMN_PITCH + column * SCALE;
      && y / LINE_PITCH == i && (y - i * LINE_PITCH) / SCALE == row
      && x / COLUMN_PITCH == k && x % COLUMN_PITCH == column * SCALE && x % COLUMN_PITCH / SCALE == column
  {
  }

  lemma CellsAreInside(lines: nat, columns: nat, i: nat, k: nat, row: int, column: int)
    requires i < lines && k < columns && 0 <= row < GLYPH_HEIGHT && 0 <= column < GLYPH_WIDTH
    ensures IsIn(WidthFor(columns), HeightFor(lines), MARGIN + i * LINE_PITCH + row * SCALE,
      MARGIN + k * COLUMN_PITCH + column * SCALE)
  {
  }

  function ImageOf(lines: seq<string>, plane: seq<Byte>): Image {
    Image(WidthFor(Columns(lines)), HeightFor(|lines|), plane)
  }

  lemma PictureAt(lines: seq<string>, plane: seq<Byte>, y: nat, x: nat)
    requires IsPicture(lines, plane) && IsIn(WidthFor(Columns(lines)), HeightFor(|lines|), y, x)
    ensures PixelOf(plane, WidthFor(Columns(lines)), HeightFor(|lines|), y, x) == INK <==>
      TextPixels(lines, |lines|)(y, x)
  {
  }

  lemma CellsAtPixels(image: Image, i: nat, k: nat, row: nat, column: nat, y: nat, x: nat)
    requires |image.plane| == image.height * image.width && IsIn(image.width, image.height, y, x)
    requires y == MARGIN + i * LINE_PITCH + row * SCALE && x == MARGIN + k * COLUMN_PITCH + column * SCALE
    ensures CellsAt(image, i, k)(row, column) <==> PixelOf(image.plane, image.width, image.height, y, x) == INK
  {
  }

  /** In a picture, a cell shows exactly what its character sets there. */
  lemma CellsShowCharacters(lines: seq<string>, plane: seq<Byte>, i: nat, k: nat, row: nat, column: nat)
    requires IsPicture(lines, plane) && i < |lines| && k < Columns(lines)
    requires row < GLYPH_HEIGHT && column < GLYPH_WIDTH
    ensures CellsAt(ImageOf(lines, plane), i, k)(row, column) <==> Cell(CharacterAt(lines[i], k), row, column)
  {
    var y: nat, x: nat := MARGIN + i * LINE_PITCH + row * SCALE, MARGIN + k * COLUMN_PITCH + column * SCALE;
    CellsAreInside(|lines|, Columns(lines), i, k, row, column);
    TextAtACell(lines, i, k, row, column);
    BlankCells(row, column);
    PictureAt(lines, plane, y, x);
    CellsAtPixels(ImageOf(lines, plane), i, k, row, column, y, x);
  }

  /** Recognition looks at no cell outside the glyph. */
  lemma RecogniseLooksInside(a: (int, int) -> bool, b: (int, int) -> bool)
    requires forall row, column :: 0 <= row < GLYPH_HEIGHT && 0 <= column < GLYPH_WIDTH ==>
      (a(row, column) <==> b(row, column))
    ensures Recognise(a) == Recognise(b)
  {
  }

  lemma CharactersReadBack(lines: seq<string>, plane: seq<Byte>, i: nat, k: nat)
    requires IsPicture(lines, plane) && IsDrawableText(lines) && i < |lines| && k < Columns(lines)
    ensures Recognise(CellsAt(ImageOf(lines, plane), i, k)) == CharacterAt(lines[i], k)
  {
    var image := ImageOf(lines, plane);
    var character := CharacterAt(lines[i], k);
    forall row, column | 0 <= row < GLYPH_HEIGHT && 0 <= column < GLYPH_WIDTH
      ensures CellsAt(image, i, k)(row, column) <==> CellsOf(character)(row, column) {
      CellsShowCharacters(lines, plane, i, k, row, column);
    }
    RecogniseLooksInside(CellsAt(image, i, k), CellsOf(character));
    assert IsDrawable(character) by {
      assert IsDrawableLine(lines[i]) && IsDrawable(' ');
    }
    EveryGlyphIsRecognised(character);
  }

  lemma ImagesHaveRoom(lines: seq<string>, plane: seq<Byte>)
    requires IsPicture(lines, plane)
    ensures var image := ImageOf(lines, plane);
      && |image.plane| == image.height * image.width && image.width >= MARGIN * 2 && image.height >= 7
      && (image.height - 7) / LINE_PITCH == |lines| && (image.width - MARGIN * 2) / COLUMN_PITCH == Columns(lines)
  {
  }

  lemma LineReadsBack(lines: seq<string>, plane: seq<Byte>, i: nat)
    requires IsPicture(lines, plane) && IsDrawableText(lines) && i < |lines|
    ensures ReadLine(ImageOf(lines, plane), i, Columns(lines)) == Padded(lines[i], Columns(lines))
  {
    var read, padded := ReadLine(ImageOf(lines, plane), i, Columns(lines)), Padded(lines[i], Columns(lines));
    forall k | 0 <= k < Columns(lines) ensures read[k] == padded[k] {
      CharactersReadBack(lines, plane, i, k);
    }
  }

  function PaddedText(lines: seq<string>): (r: seq<string>)
    ensures |r| == |lines|
  {
    seq(|lines|, i requires 0 <= i < |lines| => Padded(lines[i], Columns(lines)))
  }

  /** Padding is nothing but trailing spaces. */
  lemma PaddedTextIsTheText(lines: seq<string>, i: nat)
    requires i < |lines|
    ensures WithoutTrailingSpaces(PaddedText(lines)[i]) == WithoutTrailingSpaces(lines[i])
  {
    PaddingIsTrailingSpace(lines[i], Columns(lines));
  }

  /** The lines can be read back from their picture, up to trailing spaces. */
  lemma TextReadsBack(lines: seq<string>, plane: seq<Byte>)
    requires IsPicture(lines, plane) && IsDrawableText(lines)
    ensures CanRead(ImageOf(lines, plane)) && ReadText(ImageOf(lines, plane)) == PaddedText(lines)
  {
    ImagesHaveRoom(lines, plane);
    forall i | 0 <= i < |lines| ensures ReadText(ImageOf(lines, plane))[i] == PaddedText(lines)[i] {
      LineReadsBack(lines, plane, i);
    }
  }

  /**
   * From file back to text: decoding a rendered file and reading the image
   * gives the lines, up to trailing spaces.
   */
  lemma RenderedTextReadsBack(lines: seq<string>, plane: seq<Byte>, deflate: Codec, inflate: Inflate)
    requires IsPicture(lines, plane) && IsDrawableText(lines)
    requires forall raw :: inflate(deflate(raw)) == Some(raw)
    requires var width, height := WidthFor(Columns(lines)), HeightFor(|lines|);
      width < WORD && height < WORD && |deflate(Scanlines(width, height, plane, height))| < WORD
    ensures Decode(FileOf(WidthFor(Columns(lines)), HeightFor(|lines|), plane, deflate), inflate) ==
      Some(ImageOf(lines, plane))
    ensures CanRead(ImageOf(lines, plane)) && ReadText(ImageOf(lines, plane)) == PaddedText(lines)
  {
    PngsReadBack(WidthFor(Columns(lines)), HeightFor(|lines|), plane, deflate, inflate);
    TextReadsBack(lines, plane);
  }
}
