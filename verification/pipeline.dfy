/** The conversion pipeline as `main` runs it: extract pixels, convert to
    grayscale, map to ASCII lines, and lay the lines out on a canvas. */
module Pipeline {
  import opened Grids
  import opened PixelExtraction
  import opened Grayscale
  import opened AsciiMapper
  import opened ArtRasterizer

  /** Every ramp symbol is a single-byte (ASCII) character. */
  lemma RampIsAscii()
    ensures forall i :: 0 <= i < |Ramp| ==> (Ramp[i] as int) < 0x80
  {
  }

  /** A block of lines, each `w` ramp symbols long, has longest line `w`
      bytes, or 0 when there are no lines. */
  lemma MaxLineLengthOfRampLines(lines: seq<string>, w: nat)
    requires Rectangular(lines, w)
    requires forall y, x :: 0 <= y < |lines| && 0 <= x < |lines[y]| ==> lines[y][x] in Ramp
    ensures MaxLineLength(lines) == (if |lines| > 0 then w else 0)
  {
    RampIsAscii();
    forall y | 0 <= y < |lines|
      ensures ByteLen(lines[y]) == w
    {
      forall x | 0 <= x < |lines[y]|
        ensures (lines[y][x] as int) < 0x80
      {
        var k :| 0 <= k < |Ramp| && Ramp[k] == lines[y][x];
      }
      AsciiByteLen(lines[y]);
    }
  }

  /** main's pipeline for a decoded image with at least one row (both the
      converter and the mapper read the first row): the grayscale grid has
      the image's shape and holds the luminance of each narrowed pixel; the
      ASCII block has `height / 2` lines of `width` symbols, line `y`
      sampling grayscale row `2y`; the canvas fits that block. */
  method Convert(img: Image) returns (gray: seq<seq<byte>>, lines: seq<string>, canvas: Canvas)
    requires img.height >= 1
    ensures |gray| == img.height && Rectangular(gray, img.width)
    ensures forall y, x :: 0 <= y < |gray| && 0 <= x < |gray[y]| ==>
              gray[y][x] == Luma(NarrowPixel(img.at(x, y)))
    ensures |lines| == SampleHeight(img.height) && Rectangular(lines, img.width)
    ensures forall y, x :: 0 <= y < |lines| && 0 <= x < |lines[y]| ==>
              lines[y][x] == RampChar(gray[AspectRatio * y][x])
    ensures canvas == Layout(lines)
    ensures canvas.width == GlyphWidth * (if |lines| > 0 then img.width else 0) + 2 * Padding
    ensures canvas.height == GlyphHeight * |lines| + 2 * Padding
  {
    var pixelMatrix := GetPixelMatrix(img);
    gray := RgbToGrayScale(pixelMatrix);
    lines := GrayscaleAsciiImage(gray);
    canvas := Layout(lines);
    MaxLineLengthOfRampLines(lines, img.width);
  }

  /** A 10 x 4 image of mid gray (8-bit 128, widened to 0x8080) turns into
      two lines of ten `+` on a 90 x 46 canvas. */
  method MidGrayExample() returns (lines: seq<string>, canvas: Canvas)
    ensures lines == ["++++++++++", "++++++++++"]
    ensures canvas.width == 90 && canvas.height == 46
  {
    var img := Image(10, 4, (x: int, y: int) => Rgba16(0x8080, 0x8080, 0x8080, 0xffff));
    var gray;
    gray, lines, canvas := Convert(img);
    assert NarrowPixel(Rgba16(0x8080, 0x8080, 0x8080, 0xffff)) == Pixel(128, 128, 128);
    LumaOfNeutral(128);
    assert RampChar(128) == '+';
    assert lines[0] == "++++++++++";
    assert lines[1] == "++++++++++";
  }
}
