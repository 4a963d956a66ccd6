/** The geometry of the art rasterizer: the canvas size that fits the text
    block in 7 x 13 glyph cells with a 10-pixel margin, and the baseline at
    which each line is drawn. */
module ArtRasterizer {

  /** basicfont.Face7x13 cell size and the margin on every side. */
  const GlyphWidth: nat := 7
  const GlyphHeight: nat := 13
  const Padding: nat := 10

  /** Number of bytes in the UTF-8 encoding of `c`. */
  function Utf8Len(c: char): (n: nat)
    ensures 1 <= n <= 4
    ensures n == 1 <==> (c as int) < 0x80
  {
    if (c as int) < 0x80 then 1
    else if (c as int) < 0x800 then 2
    else if (c as int) < 0x1_0000 then 3
    else 4
  }

  /** Go's `len` of a string: its length in UTF-8 bytes. */
  function ByteLen(s: string): (n: nat)
    ensures |s| <= n <= 4 * |s|
  {
    if |s| == 0 then 0 else ByteLen(s[..|s| - 1]) + Utf8Len(s[|s| - 1])
  }

  /** A line of ASCII characters is as many bytes long as it is characters. */
  lemma {:induction false} AsciiByteLen(s: string)
    requires forall i :: 0 <= i < |s| ==> (s[i] as int) < 0x80
    ensures ByteLen(s) == |s|
  {
    if |s| > 0 {
      AsciiByteLen(s[..|s| - 1]);
    }
  }

  /** The longest line, in bytes, scanning left to right as the loop at the
      top of saveAsciiArtAsImage does; 0 when there are no lines. */
  function MaxLineLength(lines: seq<string>): (m: nat)
    ensures forall i :: 0 <= i < |lines| ==> ByteLen(lines[i]) <= m
    ensures |lines| == 0 ==> m == 0
    ensures |lines| > 0 ==> exists i :: 0 <= i < |lines| && m == ByteLen(lines[i])
  {
    if |lines| == 0 then 0
    else
      var prev := MaxLineLength(lines[..|lines| - 1]);
      var last := ByteLen(lines[|lines| - 1]);
      if last > prev then last else prev
  }

  /** `fixed.I(n)`: an integer pixel position as a 26.6 fixed-point value,
      whose integer part is `n` and whose fractional part is zero. */
  function FixedI(n: int): (f: int)
    ensures f / 64 == n && f % 64 == 0
  {
    n * 64
  }

  /** A 26.6 fixed-point point (`fixed.Point26_6`). */
  datatype Point26_6 = Point26_6(x: int, y: int)

  /** The canvas `image.Rect(0, 0, width, height)` and the pen position
      (`drawer.Dot`) set before drawing each line. */
  datatype Canvas = Canvas(width: int, height: int, dots: seq<Point26_6>)

  /** The baseline row, in whole pixels, of line `i`: below the top margin
      and `i + 1` glyph cells down. A specification helper that the
      contracts of `Layout` and `LineFits` are stated in. */
  function Baseline(i: nat): nat {
    Padding + (i + 1) * GlyphHeight
  }

  /** The 7 x 13 box of line `i`, `n` bytes long, lies inside the canvas
      margins: horizontally from the left margin to at most the right margin,
      vertically the 13 pixels above its baseline. The font's 2-pixel
      descent below the baseline is not part of this box. */
  predicate LineFits(c: Canvas, i: nat, n: nat)
    requires i < |c.dots|
  {
    c.dots[i].x == FixedI(Padding) &&
    Padding + GlyphWidth * n <= c.width - Padding &&
    c.dots[i].y == FixedI(Baseline(i)) &&
    Padding <= Baseline(i) - GlyphHeight &&
    Baseline(i) <= c.height - Padding
  }

  /** The layout part of saveAsciiArtAsImage: a canvas just large enough for
      the widest line and every line cell, plus the margin, and one pen
      position per line at which that line fits. */
  function Layout(lines: seq<string>): (c: Canvas)
    ensures |c.dots| == |lines|
    ensures forall i :: 0 <= i < |lines| ==> LineFits(c, i, ByteLen(lines[i]))
    ensures |lines| == 0 ==> c.width == 2 * Padding && c.height == 2 * Padding
    ensures |lines| > 0 ==>
              (exists i :: 0 <= i < |lines| && c.width == Padding + GlyphWidth * ByteLen(lines[i]) + Padding)
    ensures |lines| > 0 ==> c.height == Baseline(|lines| - 1) + Padding
  {
    var maxLineLength := MaxLineLength(lines);
    var imgWidth := GlyphWidth * maxLineLength + 2 * Padding;
    var imgHeight := GlyphHeight * |lines| + 2 * Padding;
    var dots := seq(|lines|, i => Point26_6(FixedI(Padding), FixedI(Padding + (i + 1) * GlyphHeight)));
    Canvas(imgWidth, imgHeight, dots)
  }

  /** For any `w` that is the longest line length (at least every line's
      length, equal to one of them, or 0 with no lines), the canvas is
      `7 * w + 20` wide and `13 * lines + 20` high. */
  lemma CanvasSize(lines: seq<string>, w: nat)
    requires forall i :: 0 <= i < |lines| ==> ByteLen(lines[i]) <= w
    requires |lines| == 0 ==> w == 0
    requires |lines| > 0 ==> exists i :: 0 <= i < |lines| && ByteLen(lines[i]) == w
    ensures Layout(lines).width == GlyphWidth * w + 2 * Padding
    ensures Layout(lines).height == GlyphHeight * |lines| + 2 * Padding
  {
  }

  /** Later lines are drawn strictly lower, a whole glyph cell apart, so no
      two lines overlap. */
  lemma BaselinesIncreasing(lines: seq<string>, i: nat, j: nat)
    requires i < j < |lines|
    ensures Layout(lines).dots[i].y + FixedI(GlyphHeight) <= Layout(lines).dots[j].y
  {
  }
}
