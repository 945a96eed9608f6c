/**
 * The glyph loop of renderText as a specification: which characters produce a
 * quad, which glyph, line and pen position each quad has, and how many vertices
 * come out. Positions are kept exact and symbolic; no floating point is involved.
 */
module TextLayout {
  import opened Glyphs

  /**
   * An x coordinate of the pen: `fromScreenX ? screenPosition.x : 0` plus
   * `size * tenths / 10`, where `size` is the text size.
   */
  datatype PenX = PenX(fromScreenX: bool, tenths: nat)

  /** Where the pen of every line starts, before the shader adds the alignment offset. */
  const LineOrigin: PenX := PenX(false, 0)

  /** Which corner of a glyph's quad a vertex is: right edge (`farX`) and lower edge (`farY`, y + size). */
  datatype Corner = Corner(farX: bool, farY: bool)

  /**
   * One vertex of a glyph quad. Its position is `(pen + (farX ? width : 0) * size / 10,
   * (line + (farY ? 1 : 0)) * size)`; its texture coordinate is the same corner of
   * the glyph's cell, the right edge pulled in to `width / 10` of the cell.
   */
  datatype TextVertex = TextVertex(glyph: nat, line: nat, pen: PenX, width: nat, corner: Corner)

  /** The six vertices renderText pushes for one glyph: two triangles. */
  function Quad(glyph: nat, line: nat, pen: PenX, width: nat): (q: seq<TextVertex>)
    ensures |q| == 6
    ensures forall i :: 0 <= i < |q| ==>
      q[i].glyph == glyph && q[i].line == line && q[i].pen == pen && q[i].width == width
  {
    [ TextVertex(glyph, line, pen, width, Corner(false, true)),
      TextVertex(glyph, line, pen, width, Corner(true, true)),
      TextVertex(glyph, line, pen, width, Corner(false, false)),
      TextVertex(glyph, line, pen, width, Corner(true, false)),
      TextVertex(glyph, line, pen, width, Corner(false, false)),
      TextVertex(glyph, line, pen, width, Corner(true, true)) ]
  }

  /** What one character leaves behind: the vertices it adds, and the pen and line after it. */
  datatype Advance = Advance(quad: seq<TextVertex>, pen: PenX, line: nat)

  /**
   * One pass of the loop for character `c`. A character whose glyph is past the
   * table is skipped; a newline moves to `lineStart` on the next line; every
   * other character draws its quad and advances the pen by its glyph's width.
   */
  function Step(c: char, widths: seq<nat>, lineStart: PenX, pen: PenX, line: nat): (r: Advance)
    ensures |r.quad| == if Draws(c, |widths|) then 6 else 0
    ensures r.line == if c == '\n' && |widths| > 0 then line + 1 else line
  {
    var glyph := CharToIndex(c);
    if glyph >= |widths| then Advance([], pen, line)
    else if c == '\n' then Advance([], lineStart, line + 1)
    else Advance(Quad(glyph, line, pen, widths[glyph]), pen.(tenths := pen.tenths + widths[glyph]), line)
  }

  /**
   * The vertices the loop appends for `text`, given the glyph widths, the pen
   * position a newline returns to, and the current pen and line: the steps of
   * its characters, one after the other.
   */
  function Layout(text: string, widths: seq<nat>, lineStart: PenX, pen: PenX, line: nat): seq<TextVertex>
    decreases |text|
  {
    if text == [] then []
    else
      var r := Step(text[0], widths, lineStart, pen, line);
      r.quad + Layout(text[1..], widths, lineStart, r.pen, r.line)
  }

  /** The vertices the first character of a non-empty text contributes, and the pen and line it leaves. */
  lemma LayoutStep(text: string, widths: seq<nat>, lineStart: PenX, pen: PenX, line: nat)
    requires text != []
    ensures CharToIndex(text[0]) >= |widths| ==>
      Layout(text, widths, lineStart, pen, line) == Layout(text[1..], widths, lineStart, pen, line)
    ensures CharToIndex(text[0]) < |widths| && text[0] == '\n' ==>
      Layout(text, widths, lineStart, pen, line) == Layout(text[1..], widths, lineStart, lineStart, line + 1)
    ensures var glyph := CharToIndex(text[0]);
      glyph < |widths| && text[0] != '\n' ==>
      Layout(text, widths, lineStart, pen, line) == Quad(glyph, line, pen, widths[glyph])
        + Layout(text[1..], widths, lineStart, pen.(tenths := pen.tenths + widths[glyph]), line)
  {
    assert [] + Layout(text[1..], widths, lineStart, pen, line) == Layout(text[1..], widths, lineStart, pen, line);
    assert [] + Layout(text[1..], widths, lineStart, lineStart, line + 1) == Layout(text[1..], widths, lineStart, lineStart, line + 1);
  }

  /** The geometry of a whole text: every line starts at the line origin. */
  function TextGeometry(text: string, widths: seq<nat>): seq<TextVertex>
  {
    Layout(text, widths, LineOrigin, LineOrigin, 0)
  }

  /** Whether character `c` draws a quad with a glyph table of `glyphCount` entries. */
  predicate Draws(c: char, glyphCount: nat)
  {
    CharToIndex(c) < glyphCount && c != '\n'
  }

  /** How many characters of `text` draw a quad. */
  function DrawnCount(text: string, glyphCount: nat): nat
    decreases |text|
  {
    if text == [] then 0 else (if Draws(text[0], glyphCount) then 1 else 0) + DrawnCount(text[1..], glyphCount)
  }

  /** How many newlines `text` holds. */
  function Newlines(text: string): nat
    decreases |text|
  {
    if text == [] then 0 else (if text[0] == '\n' then 1 else 0) + Newlines(text[1..])
  }

  /** Six vertices for each character that draws, none for the others. */
  lemma {:induction false} VertexCount(text: string, widths: seq<nat>, lineStart: PenX, pen: PenX, line: nat)
    ensures |Layout(text, widths, lineStart, pen, line)| == 6 * DrawnCount(text, |widths|)
    decreases |text|
  {
    if text != [] {
      var r := Step(text[0], widths, lineStart, pen, line);
      VertexCount(text[1..], widths, lineStart, r.pen, r.line);
    }
  }

  /** With a full glyph table (more than 90 entries) only newlines are left undrawn. */
  lemma {:induction false} FullTableDrawsAllButNewlines(text: string, glyphCount: nat)
    requires glyphCount > MAX_GLYPH_INDEX
    ensures DrawnCount(text, glyphCount) == |text| - Newlines(text)
    ensures Newlines(text) <= |text|
    decreases |text|
  {
    if text != [] {
      FullTableDrawsAllButNewlines(text[1..], glyphCount);
    }
  }

  /**
   * When newlines return to the line origin, no vertex's pen includes
   * `screenPosition.x`, and every line number lies between the starting line and
   * the starting line plus the newlines of the text.
   */
  lemma {:induction false} LinesShareLeftEdge(text: string, widths: seq<nat>, pen: PenX, line: nat)
    requires !pen.fromScreenX
    ensures forall v :: v in Layout(text, widths, LineOrigin, pen, line) ==>
      !v.pen.fromScreenX && line <= v.line <= line + Newlines(text)
    decreases |text|
  {
    if text != [] {
      var r := Step(text[0], widths, LineOrigin, pen, line);
      LinesShareLeftEdge(text[1..], widths, r.pen, r.line);
    }
  }

  /**
   * A newline ends its line: whatever pen position the text before it leaves,
   * the text after it is laid out from `lineStart` on the line numbered one past
   * the newlines before it, exactly as a text of its own would be.
   */
  lemma {:induction false} NewlineRestartsLine(before: string, after: string, widths: seq<nat>,
                                               lineStart: PenX, pen: PenX, line: nat)
    requires |widths| > 0
    ensures Layout(before + "\n" + after, widths, lineStart, pen, line)
      == Layout(before, widths, lineStart, pen, line)
         + Layout(after, widths, lineStart, lineStart, line + Newlines(before) + 1)
    decreases |before|
  {
    var text := before + "\n" + after;
    if before == [] {
      assert text[0] == '\n' && text[1..] == after;
    } else {
      assert text[0] == before[0] && text[1..] == before[1..] + "\n" + after;
      var r := Step(before[0], widths, lineStart, pen, line);
      NewlineRestartsLine(before[1..], after, widths, lineStart, r.pen, r.line);
      var head := Layout(before[1..], widths, lineStart, r.pen, r.line);
      var tail := Layout(after, widths, lineStart, lineStart, line + Newlines(before) + 1);
      assert r.quad + (head + tail) == (r.quad + head) + tail;
    }
  }

  /**
   * In the corrected geometry of a whole text, the line after any newline starts
   * at the line origin (tenths 0, no `screenPosition.x`), on line `Newlines(before) + 1`.
   */
  lemma EveryLineStartsAtOrigin(before: string, after: string, widths: seq<nat>)
    requires |widths| > 0
    ensures TextGeometry(before + "\n" + after, widths)
      == TextGeometry(before, widths) + Layout(after, widths, LineOrigin, LineOrigin, Newlines(before) + 1)
  {
    NewlineRestartsLine(before, after, widths, LineOrigin, LineOrigin, 0);
  }

  // ---------------------------------------------------------------------------
  // The newline reset as written
  // ---------------------------------------------------------------------------

  /**
   * renderText as written: a newline sets the pen to `screenPosition.x`, although
   * the shader adds `screenPosition` (the alignment offset) to every vertex anyway.
   */
  function TextGeometryAsWritten(text: string, widths: seq<nat>): (geo: seq<TextVertex>)
    ensures |geo| == 6 * DrawnCount(text, |widths|)
    ensures forall v :: v in geo ==> (v.pen.fromScreenX <==> v.line > 0)
  {
    VertexCount(text, widths, PenX(true, 0), LineOrigin, 0);
    LaterLinesShifted(text, widths, LineOrigin, 0);
    Layout(text, widths, PenX(true, 0), LineOrigin, 0)
  }

  /**
   * With the newline reset as written, exactly the vertices after the first
   * line carry `screenPosition.x` in their pen, on top of the alignment offset.
   */
  lemma {:induction false} LaterLinesShifted(text: string, widths: seq<nat>, pen: PenX, line: nat)
    requires pen.fromScreenX <==> line > 0
    ensures forall v :: v in Layout(text, widths, PenX(true, 0), pen, line) ==> (v.pen.fromScreenX <==> v.line > 0)
    decreases |text|
  {
    if text != [] {
      var r := Step(text[0], widths, PenX(true, 0), pen, line);
      LaterLinesShifted(text[1..], widths, r.pen, r.line);
    }
  }

  /**
   * For "a\nb" the first line's glyph starts at the origin, but as written the
   * second line's glyph starts `screenPosition.x` further right; with the newline
   * returning to the origin both lines start at the same x.
   */
  lemma SecondLineShiftedByScreenX(widths: seq<nat>)
    requires |widths| > MAX_GLYPH_INDEX
    ensures var asWritten := TextGeometryAsWritten("a\nb", widths);
      |asWritten| == 12 && asWritten[0].pen == PenX(false, 0) && asWritten[6].pen == PenX(true, 0)
    ensures var intended := TextGeometry("a\nb", widths);
      |intended| == 12 && intended[0].pen == PenX(false, 0) && intended[6].pen == PenX(false, 0)
  {
    var text := "a\nb";
    assert text[1..] == "\nb" && text[1..][1..] == "b" && text[1..][1..][1..] == [];
    var b := CharToIndex('b');
    var rest := Layout("b", widths, PenX(true, 0), PenX(true, 0), 1);
    assert rest == Quad(b, 1, PenX(true, 0), widths[b]) + [];
    var fixedRest := Layout("b", widths, LineOrigin, LineOrigin, 1);
    assert fixedRest == Quad(b, 1, LineOrigin, widths[b]) + [];
  }
}
