/** The 5x7 font of `evals/fixtures/transcription.ts`, and a reader for it. */
module Font {
  import opened Prelude

  const GLYPH_WIDTH: nat := 5
  const GLYPH_HEIGHT: nat := 7

  /** Seven rows of five cells, `#` set and `.` clear; None for a character the font cannot draw. */
  function GlyphOf(character: char): Option<seq<string>> {
    match character
    case ' ' => Some([".....", ".....", ".....", ".....", ".....", ".....", "....."])
    case 'A' => Some([".###.", "#...#", "#...#", "#####", "#...#", "#...#", "#...#"])
    case 'B' => Some(["####.", "#...#", "####.", "#...#", "#...#", "#...#", "####."])
    case 'C' => Some([".###.", "#...#", "#....", "#....", "#....", "#...#", ".###."])
    case 'D' => Some(["####.", "#...#", "#...#", "#...#", "#...#", "#...#", "####."])
    case 'E' => Some(["#####", "#....", "####.", "#....", "#....", "#....", "#####"])
    case 'F' => Some(["#####", "#....", "####.", "#....", "#....", "#....", "#...."])
    case 'G' => Some([".###.", "#...#", "#....", "#.###", "#...#", "#...#", ".###."])
    case 'H' => Some(["#...#", "#...#", "#...#", "#####", "#...#", "#...#", "#...#"])
    case 'I' => Some(["#####", "..#..", "..#..", "..#..", "..#..", "..#..", "#####"])
    case 'J' => Some(["..###", "...#.", "...#.", "...#.", "...#.", "#..#.", ".##.."])
    case 'K' => Some(["#...#", "#..#.", "#.#..", "##...", "#.#..", "#..#.", "#...#"])
    case 'L' => Some(["#....", "#....", "#....", "#....", "#....", "#....", "#####"])
    case 'M' => Some(["#...#", "##.##", "#.#.#", "#...#", "#...#", "#...#", "#...#"])
    case 'N' => Some(["#...#", "##..#", "#.#.#", "#..##", "#...#", "#...#", "#...#"])
    case 'O' => Some([".###.", "#...#", "#...#", "#...#", "#...#", "#...#", ".###."])
    case 'P' => Some(["####.", "#...#", "#...#", "####.", "#....", "#....", "#...."])
    case 'Q' => Some([".###.", "#...#", "#...#", "#...#", "#.#.#", "#..#.", ".##.#"])
    case 'R' => Some(["####.", "#...#", "#...#", "####.", "#.#..", "#..#.", "#...#"])
    case 'S' => Some([".####", "#....", "#....", ".###.", "....#", "....#", "####."])
    case 'T' => Some(["#####", "..#..", "..#..", "..#..", "..#..", "..#..", "..#.."])
    case 'U' => Some(["#...#", "#...#", "#...#", "#...#", "#...#", "#...#", ".###."])
    case 'V' => Some(["#...#", "#...#", "#...#", "#...#", "#...#", ".#.#.", "..#.."])
    case 'W' => Some(["#...#", "#...#", "#...#", "#...#", "#.#.#", "##.##", "#...#"])
    case 'X' => Some(["#...#", "#...#", ".#.#.", "..#..", ".#.#.", "#...#", "#...#"])
    case 'Y' => Some(["#...#", "#...#", ".#.#.", "..#..", "..#..", "..#..", "..#.."])
    case 'Z' => Some(["#####", "....#", "...#.", "..#..", ".#...", "#....", "#####"])
    case '0' => Some([".###.", "#...#", "#..##", "#.#.#", "##..#", "#...#", ".###."])
    case '1' => Some(["..#..", ".##..", "..#..", "..#..", "..#..", "..#..", "#####"])
    case '2' => Some([".###.", "#...#", "....#", "...#.", "..#..", ".#...", "#####"])
    case '3' => Some(["#####", "...#.", "..#..", "...#.", "....#", "#...#", ".###."])
    case '4' => Some(["...#.", "..##.", ".#.#.", "#..#.", "#####", "...#.", "...#."])
    case '5' => Some(["#####", "#....", "####.", "....#", "....#", "#...#", ".###."])
    case '6' => Some(["..##.", ".#...", "#....", "####.", "#...#", "#...#", ".###."])
    case '7' => Some(["#####", "....#", "...#.", "..#..", ".#...", ".#...", ".#..."])
    case '8' => Some([".###.", "#...#", "#...#", ".###.", "#...#", "#...#", ".###."])
    case '9' => Some([".###.", "#...#", "#...#", ".####", "....#", "...#.", ".##.."])
    case '-' => Some([".....", ".....", ".....", "#####", ".....", ".....", "....."])
    case ':' => Some([".....", "..#..", "..#..", ".....", "..#..", "..#..", "....."])
    case '.' => Some([".....", ".....", ".....", ".....", ".....", ".##..", ".##.."])
    case '/' => Some(["....#", "...#.", "...#.", "..#..", ".#...", ".#...", "#...."])
    case _ => None
  }

  predicate IsDrawable(character: char) {
    GlyphOf(character).Some?
  }

  predicate IsGlyph(rows: seq<string>) {
    |rows| == GLYPH_HEIGHT && forall r :: 0 <= r < GLYPH_HEIGHT ==> |rows[r]| == GLYPH_WIDTH
  }

  lemma ShapesTo4(character: char)
    requires IsDrawable(character) && character < '5'
    ensures IsGlyph(GlyphOf(character).value)
  {
  }

  lemma ShapesFrom5(character: char)
    requires IsDrawable(character) && '5' <= character < 'A'
    ensures IsGlyph(GlyphOf(character).value)
  {
  }

  lemma ShapesToF(character: char)
    requires IsDrawable(character) && 'A' <= character <= 'F'
    ensures IsGlyph(GlyphOf(character).value)
  {
  }

  lemma ShapesToL(character: char)
    requires IsDrawable(character) && 'F' < character <= 'L'
    ensures IsGlyph(GlyphOf(character).value)
  {
  }

  lemma ShapesToR(character: char)
    requires IsDrawable(character) && 'L' < character <= 'R'
    ensures IsGlyph(GlyphOf(character).value)
  {
  }

  lemma ShapesFromS(character: char)
    requires IsDrawable(character) && 'R' < character
    ensures IsGlyph(GlyphOf(character).value)
  {
  }

  lemma GlyphShape(character: char)
    requires IsDrawable(character)
    ensures IsGlyph(GlyphOf(character).value)
  {
    if character < '5' {
      ShapesTo4(character);
    } else if character < 'A' {
      ShapesFrom5(character);
    } else if character <= 'F' {
      ShapesToF(character);
    } else if character <= 'L' {
      ShapesToL(character);
    } else if character <= 'R' {
      ShapesToR(character);
    } else {
      ShapesFromS(character);
    }
  }

  /** Whether a cell of the glyph is set; false outside the glyph. */
  predicate Cell(character: char, row: int, column: int) {
    && IsDrawable(character)
    && var rows := GlyphOf(character).value;
       0 <= row < |rows| && 0 <= column < |rows[row]| && rows[row][column] == '#'
  }

  /** Tell a glyph from at most six of its cells. */
  function Recognise(ink: (int, int) -> bool): char {
    if ink(0, 4) then
      if ink(0, 2) then
        if ink(3, 2) then
          if ink(1, 2) then
            if ink(6, 0) then
              'I'
            else
              'T'
          else
            if ink(0, 0) then
              if ink(5, 0) then
                'Z'
              else
                '7'
            else
              'S'
        else
          if ink(1, 0) then
            if ink(3, 0) then
              if ink(6, 1) then
                'E'
              else
                'F'
            else
              '5'
          else
            if ink(0, 0) then
              '3'
            else
              'J'
      else
        if ink(2, 4) then
          if ink(1, 1) then
            if ink(1, 3) then
              'M'
            else
              'N'
          else
            if ink(5, 1) then
              if ink(4, 2) then
                'W'
              else
                'V'
            else
              if ink(3, 1) then
                'H'
              else
                'U'
        else
          if ink(1, 3) then
            if ink(0, 0) then
              'K'
            else
              '/'
          else
            if ink(4, 1) then
              'X'
            else
              'Y'
    else
      if ink(2, 4) then
        if ink(3, 1) then
          if ink(0, 0) then
            if ink(4, 2) then
              'R'
            else
              'P'
          else
            if ink(3, 0) then
              'A'
            else
              if ink(3, 4) then
                '9'
              else
                '8'
        else
          if ink(4, 2) then
            if ink(2, 0) then
              'Q'
            else
              '2'
          else
            if ink(0, 0) then
              'D'
            else
              if ink(2, 3) then
                '0'
              else
                'O'
      else
        if ink(0, 2) then
          if ink(0, 1) then
            if ink(0, 0) then
              'B'
            else
              if ink(3, 2) then
                'G'
              else
                'C'
          else
            if ink(0, 3) then
              '6'
            else
              '1'
        else
          if ink(3, 0) then
            if ink(0, 0) then
              'L'
            else
              if ink(0, 3) then
                '4'
              else
                '-'
          else
            if ink(1, 2) then
              ':'
            else
              if ink(5, 1) then
                '.'
              else
                ' '
  }

  function CellsOf(character: char): (int, int) -> bool {
    (row: int, column: int) => Cell(character, row, column)
  }

  lemma RecognisedTo4(character: char)
    requires IsDrawable(character) && character < '5'
    ensures Recognise(CellsOf(character)) == character
  {
  }

  lemma RecognisedFrom5(character: char)
    requires IsDrawable(character) && '5' <= character < 'A'
    ensures Recognise(CellsOf(character)) == character
  {
  }

  lemma RecognisedToF(character: char)
    requires IsDrawable(character) && 'A' <= character <= 'F'
    ensures Recognise(CellsOf(character)) == character
  {
  }

  lemma RecognisedToL(character: char)
    requires IsDrawable(character) && 'F' < character <= 'L'
    ensures Recognise(CellsOf(character)) == character
  {
  }

  lemma RecognisedToR(character: char)
    requires IsDrawable(character) && 'L' < character <= 'R'
    ensures Recognise(CellsOf(character)) == character
  {
  }

  lemma RecognisedFromS(character: char)
    requires IsDrawable(character) && 'R' < character
    ensures Recognise(CellsOf(character)) == character
  {
  }

  /** No two characters share a glyph: each is told apart from all others. */
  lemma EveryGlyphIsRecognised(character: char)
    requires IsDrawable(character)
    ensures Recognise(CellsOf(character)) == character
  {
    if character < '5' {
      RecognisedTo4(character);
    } else if character < 'A' {
      RecognisedFrom5(character);
    } else if character <= 'F' {
      RecognisedToF(character);
    } else if character <= 'L' {
      RecognisedToL(character);
    } else if character <= 'R' {
      RecognisedToR(character);
    } else {
      RecognisedFromS(character);
    }
  }
}
