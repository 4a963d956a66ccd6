/** The pixel extractor: turns a decoded image, whose colour channels are
    16-bit values, into a height x width grid of 8-bit RGB pixels. */
module PixelExtraction {
  import opened Grids

  /** The four 16-bit channels `img.At(x, y).RGBA()` yields. */
  datatype Rgba16 = Rgba16(r: u16, g: u16, b: u16, a: u16)

  /** A decoded image as the extractor uses it: `Bounds().Max` as width and
      height, and a colour lookup that is defined at every coordinate (as
      `image.Image.At` is). */
  datatype Image = Image(width: nat, height: nat, at: (int, int) -> Rgba16)

  /** An 8-bit RGB pixel; alpha is not kept. */
  datatype Pixel = Pixel(r: byte, g: byte, b: byte)

  /** `uint8(v >> 8)`: the high byte of a 16-bit channel. The `% 0x100` is
      the `uint8` conversion, which never changes a shifted 16-bit value. */
  function Narrow(v: u16): (n: byte)
    ensures 0x100 * n <= v < 0x100 * (n + 1)
  {
    (v / 0x100) % 0x100
  }

  /** Narrowing keeps the order of channel values. */
  lemma NarrowMonotone(v: u16, w: u16)
    requires v <= w
    ensures Narrow(v) <= Narrow(w)
  {
  }

  /** An 8-bit channel widened the way `color.RGBA.RGBA()` widens it
      (`n | n << 8`, that is `n * 0x101`) narrows back to itself. */
  lemma NarrowUndoesWidening(n: byte)
    ensures Narrow(n * 0x101) == n
  {
  }

  /** The pixel stored for one source colour: each channel narrowed, alpha
      dropped. */
  function NarrowPixel(c: Rgba16): (p: Pixel)
    ensures 0x100 * p.r <= c.r < 0x100 * (p.r + 1)
    ensures 0x100 * p.g <= c.g < 0x100 * (p.g + 1)
    ensures 0x100 * p.b <= c.b < 0x100 * (p.b + 1)
  {
    Pixel(Narrow(c.r), Narrow(c.g), Narrow(c.b))
  }

  /** getPixelMatrix: one row per y in [0, height), one pixel per x in
      [0, width), each the narrowed colour at (x, y). */
  method GetPixelMatrix(img: Image) returns (m: seq<seq<Pixel>>)
    ensures |m| == img.height
    ensures Rectangular(m, img.width)
    ensures forall y, x :: 0 <= y < |m| && 0 <= x < |m[y]| ==>
              m[y][x] == NarrowPixel(img.at(x, y))
  {
    m := [];
    var y := 0;
    while y < img.height
      invariant y <= img.height
      invariant |m| == y
      invariant Rectangular(m, img.width)
      invariant forall j, x :: 0 <= j < y && 0 <= x < |m[j]| ==>
                  m[j][x] == NarrowPixel(img.at(x, j))
    {
      var row: seq<Pixel> := [];
      var x := 0;
      while x < img.width
        invariant x <= img.width
        invariant |row| == x
        invariant forall i :: 0 <= i < x ==> row[i] == NarrowPixel(img.at(i, y))
      {
        var c := img.at(x, y);
        row := row + [Pixel(Narrow(c.r), Narrow(c.g), Narrow(c.b))];
        x := x + 1;
      }
      m := m + [row];
      y := y + 1;
    }
  }
}
