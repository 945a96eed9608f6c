/**
 * TextRenderer: its glyph-width table, its font texture names, and the glyph
 * loop of renderText.
 */
module TextRendering {
  import opened Glyphs
  import opened TextLayout

  /** setFontTexture's bounds test as written: only the upper bound is checked. */
  function FontGuardAsWritten(index: int, fontCount: nat): (admitted: bool)
    ensures 0 <= index ==> (admitted <==> index < fontCount)
    ensures index < 0 ==> admitted
  {
    index < fontCount
  }

  /** A negative font index passes the test as written although it names no font slot. */
  lemma NegativeIndexPassesFontGuard(fontCount: nat)
    ensures FontGuardAsWritten(-1, fontCount) && !(0 <= -1 < fontCount)
  {
  }

  class TextRenderer {
    /** Width of each glyph, in tenths of the font size (GAME_GLYPHS entries). */
    const glyphData: array<nat>
    /** Texture name of each font (GAME_FONTS entries). */
    const fonts: array<string>

    /** The glyph table has an entry for every glyph charToIndex returns. */
    ghost predicate Valid()
      reads this
    {
      glyphData.Length > MAX_GLYPH_INDEX
    }

    /**
     * Sets every glyph 1.0 wide, then space 0.4 and apostrophe 0.5, then each
     * letter, both cases, its own width; all font names start empty.
     */
    constructor (glyphCount: nat, fontCount: nat)
      requires glyphCount > MAX_GLYPH_INDEX
      ensures Valid() && fresh(glyphData) && fresh(fonts)
      ensures glyphData.Length == glyphCount && fonts.Length == fontCount
      ensures forall g :: 0 <= g < glyphCount ==> glyphData[g] == InitialWidth(g)
      ensures forall i :: 0 <= i < fontCount ==> fonts[i] == ""
    {
      var widths := new nat[glyphCount];
      var g := 0;
      while g < glyphCount
        invariant 0 <= g <= glyphCount
        invariant forall j :: 0 <= j < g ==> widths[j] == 10
      {
        widths[g] := 10;
        g := g + 1;
      }
      widths[CharToIndex(' ')] := 4;
      widths[CharToIndex('\'')] := 5;
      var k := 0;
      while k <= 'z' as int - 'a' as int
        invariant 0 <= k <= 26
        invariant forall j :: 0 <= j < glyphCount ==>
          widths[j] == if LetterOffset(j) < k then LetterWidth(LetterOffset(j)) else BaseWidth(j)
      {
        var lower := ('a' as int + k) as char;
        var upper := ('A' as int + k) as char;
        var w := match lower
          case 'i' => 4
          case 'l' => 5
          case 'm' => 10
          case 'w' => 10
          case _ => 7;
        widths[CharToIndex(lower)] := w;
        widths[CharToIndex(upper)] := w;
        k := k + 1;
      }
      glyphData := widths;
      fonts := new string[fontCount](_ => "");
    }

    /** setFontTexture, with the lower bound added: only an existing slot is written. */
    method SetFontTexture(index: int, texture: string)
      requires Valid()
      modifies fonts
      ensures Valid()
      ensures 0 <= index < fonts.Length ==> fonts[..] == old(fonts[..])[index := texture]
      ensures !(0 <= index < fonts.Length) ==> fonts[..] == old(fonts[..])
    {
      if 0 <= index < fonts.Length {
        fonts[index] := texture;
      }
    }

    /**
     * The glyph loop of renderText: the vertices it pushes into `geo`, six for
     * each character that draws, with every line starting at the line origin.
     * This is the corrected newline reset: the code as written returns the pen
     * to `screenPosition.x` (TextGeometryAsWritten).
     */
    method RenderText(text: string) returns (geo: seq<TextVertex>)
      requires Valid()
      ensures geo == TextGeometry(text, glyphData[..])
      ensures |geo| == 6 * DrawnCount(text, glyphData.Length)
      ensures |geo| == 6 * (|text| - Newlines(text))
    {
      geo := [];
      ghost var widths := glyphData[..];
      var pen := LineOrigin;
      var line := 0;
      var i := 0;
      while i < |text|
        invariant 0 <= i <= |text|
        invariant geo + Layout(text[i..], widths, LineOrigin, pen, line) == TextGeometry(text, widths)
      {
        var c := text[i];
        var glyph := CharToIndex(c);
        assert text[i..][1..] == text[i + 1..];
        LayoutStep(text[i..], widths, LineOrigin, pen, line);
        if glyph < glyphData.Length {
          var width := glyphData[glyph];
          if c == '\n' {
            pen := LineOrigin;
            line := line + 1;
          } else {
            var quad := Quad(glyph, line, pen, width);
            ghost var rest := Layout(text[i + 1..], widths, LineOrigin, pen.(tenths := pen.tenths + width), line);
            assert geo + (quad + rest) == (geo + quad) + rest;
            geo := geo + quad;
            pen := pen.(tenths := pen.tenths + width);
          }
        }
        i := i + 1;
      }
      assert text[|text|..] == [];
      VertexCount(text, glyphData[..], LineOrigin, LineOrigin, 0);
      FullTableDrawsAllButNewlines(text, glyphData.Length);
    }
  }
}
