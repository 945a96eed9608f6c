/**
 * The text renderer's glyph tables: which glyph of the font a character uses,
 * where that glyph sits in the 16-column font texture, and how wide each glyph
 * is drawn. Widths are in tenths of the font size (0.4 is 4, 1.0 is 10).
 */
module Glyphs {

  /** The largest index charToIndex returns (the glyph of 'z'). */
  const MAX_GLYPH_INDEX: nat := 90

  /** Columns of the font texture's glyph grid. */
  const GRID_COLUMNS: int := 16

  /** The characters the font has a glyph for: '!' to '/', the digits and the ASCII letters. */
  predicate Recognised(c: char)
  {
    ('!' <= c <= '/') || ('0' <= c <= '9') || ('A' <= c <= 'Z') || ('a' <= c <= 'z')
  }

  predicate IsLetter(c: char)
  {
    ('A' <= c <= 'Z') || ('a' <= c <= 'z')
  }

  /**
   * charToIndex: the glyph of a character. Recognised characters use the glyph
   * at their ASCII code minus 32; every other character (space, newline, ':' to
   * '@', '[' to '`', ...) falls back to glyph 0.
   */
  function CharToIndex(g: char): (index: nat)
    ensures index <= MAX_GLYPH_INDEX
    ensures Recognised(g) ==> index == g as int - 32
    ensures !Recognised(g) ==> index == 0
  {
    if '0' <= g <= '9' then 16 + (g as int - '0' as int)
    else if 'A' <= g <= 'Z' then 33 + (g as int - 'A' as int)
    else if 'a' <= g <= 'z' then 65 + (g as int - 'a' as int)
    else
      match g
      case '!' => 1
      case '"' => 2
      case '#' => 3
      case '$' => 4
      case '%' => 5
      case '&' => 6
      case '\'' => 7
      case '(' => 8
      case ')' => 9
      case '*' => 10
      case '+' => 11
      case ',' => 12
      case '-' => 13
      case '.' => 14
      case '/' => 15
      case _ => 0
  }

  /** Digits, upper-case and lower-case letters occupy three runs of the glyph table. */
  lemma CharToIndexRanges(g: char)
    ensures '0' <= g <= '9' ==> CharToIndex(g) == 16 + (g as int - '0' as int) && 16 <= CharToIndex(g) <= 25
    ensures 'A' <= g <= 'Z' ==> CharToIndex(g) == 33 + (g as int - 'A' as int) && 33 <= CharToIndex(g) <= 58
    ensures 'a' <= g <= 'z' ==> CharToIndex(g) == 65 + (g as int - 'a' as int) && 65 <= CharToIndex(g) <= 90
    ensures '!' <= g <= '/' ==> 1 <= CharToIndex(g) <= 15
    ensures g == ' ' || g == '\n' ==> CharToIndex(g) == 0
  {
  }

  /** The glyph indices charToIndex can return for a recognised character. */
  predicate IsCharacterGlyph(index: int)
  {
    (1 <= index <= 25) || (33 <= index <= 58) || (65 <= index <= 90)
  }

  /** The character a glyph index stands for: the inverse of charToIndex on recognised characters. */
  function GlyphChar(index: int): (c: char)
    requires IsCharacterGlyph(index)
    ensures Recognised(c)
  {
    (index + 32) as char
  }

  /** charToIndex is a bijection between recognised characters and the character glyphs. */
  lemma GlyphRoundTrip(c: char, index: int)
    ensures Recognised(c) ==> IsCharacterGlyph(CharToIndex(c)) && GlyphChar(CharToIndex(c)) == c
    ensures IsCharacterGlyph(index) ==> CharToIndex(GlyphChar(index)) == index
  {
  }

  /** Distinct recognised characters get distinct, non-zero glyphs. */
  lemma CharToIndexInjective(c1: char, c2: char)
    requires Recognised(c1) && Recognised(c2) && c1 != c2
    ensures CharToIndex(c1) != CharToIndex(c2)
    ensures CharToIndex(c1) != 0 && CharToIndex(c2) != 0
  {
    GlyphRoundTrip(c1, 0);
    GlyphRoundTrip(c2, 0);
  }

  // ---------------------------------------------------------------------------
  // The glyph's cell in the font texture (integer part of indexToCoord)
  // ---------------------------------------------------------------------------

  /** C++ integer division, which truncates toward zero. */
  function TruncDiv(a: int, b: int): int
    requires b > 0
  {
    if a >= 0 then a / b else -((-a) / b)
  }

  /** C++ `%`, whose result takes the sign of the dividend. */
  function TruncMod(a: int, b: int): int
    requires b > 0
  {
    if a >= 0 then a % b else -((-a) % b)
  }

  datatype Cell = Cell(column: int, row: int)

  /**
   * The grid cell of a glyph: `x = index % 16`, `y = index / 16` in C++'s
   * arithmetic. Together they give back the index; for the non-negative indices
   * charToIndex produces the column is a proper column of the grid.
   */
  function GridCell(index: int): (cell: Cell)
    ensures cell.row * GRID_COLUMNS + cell.column == index
    ensures index >= 0 ==> 0 <= cell.column < GRID_COLUMNS && 0 <= cell.row
    ensures index < 0 ==> -GRID_COLUMNS < cell.column <= 0 && cell.row <= 0
  {
    Cell(TruncMod(index, GRID_COLUMNS), TruncDiv(index, GRID_COLUMNS))
  }

  /** Distinct glyphs occupy distinct cells, and every glyph charToIndex returns lies in rows 0 to 5. */
  lemma GlyphCellsDistinct(i: int, j: int)
    ensures i != j ==> GridCell(i) != GridCell(j)
    ensures 0 <= i <= MAX_GLYPH_INDEX ==> GridCell(i).row <= 5
  {
  }

  // ---------------------------------------------------------------------------
  // Glyph widths set up by the TextRenderer constructor
  // ---------------------------------------------------------------------------

  /** Width of the letter at alphabet position `k` (0 for 'a'/'A'), in tenths. */
  function LetterWidth(k: nat): int
    requires k < 26
  {
    match ('a' as int + k) as char
    case 'i' => 4
    case 'l' => 5
    case 'm' => 10
    case 'w' => 10
    case _ => 7
  }

  /** Alphabet position of a letter glyph, or 26 for any other glyph. */
  function LetterOffset(glyph: nat): (k: nat)
    ensures k <= 26
  {
    if 33 <= glyph <= 58 then glyph - 33
    else if 65 <= glyph <= 90 then glyph - 65
    else 26
  }

  /** The width table before the letter pass: space 0.4, apostrophe 0.5, everything else 1.0. */
  function BaseWidth(glyph: nat): int
  {
    if glyph == CharToIndex(' ') then 4
    else if glyph == CharToIndex('\'') then 5
    else 10
  }

  /** The width of each glyph once the constructor has run. */
  function InitialWidth(glyph: nat): int
  {
    if LetterOffset(glyph) < 26 then LetterWidth(LetterOffset(glyph)) else BaseWidth(glyph)
  }

  /** The widths character by character. */
  lemma GlyphWidthsByCharacter(c: char)
    ensures !Recognised(c) ==> InitialWidth(CharToIndex(c)) == 4
    ensures c == '\'' ==> InitialWidth(CharToIndex(c)) == 5
    ensures c == 'i' || c == 'I' ==> InitialWidth(CharToIndex(c)) == 4
    ensures c == 'l' || c == 'L' ==> InitialWidth(CharToIndex(c)) == 5
    ensures c in "mMwW" ==> InitialWidth(CharToIndex(c)) == 10
    ensures IsLetter(c) && c !in "iIlLmMwW" ==> InitialWidth(CharToIndex(c)) == 7
    ensures Recognised(c) && !IsLetter(c) && c != '\'' ==> InitialWidth(CharToIndex(c)) == 10
  {
  }

  /** Every glyph that is not space, apostrophe or a letter is 1.0 wide. */
  lemma OtherGlyphsFullWidth(glyph: nat)
    requires glyph != 0 && glyph != 7 && LetterOffset(glyph) == 26
    ensures InitialWidth(glyph) == 10
  {
  }

  /** Upper and lower case of a letter are drawn equally wide. */
  lemma CaseInsensitiveWidths(k: nat)
    requires k < 26
    ensures InitialWidth(CharToIndex(('a' as int + k) as char)) == InitialWidth(CharToIndex(('A' as int + k) as char))
    ensures InitialWidth(CharToIndex(('a' as int + k) as char)) == LetterWidth(k)
  {
  }
}
