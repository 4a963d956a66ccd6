/** The grayscale converter: one luminance byte per pixel, by the
    luminosity method with weights 0.21 / 0.72 / 0.07 (a rounding of the
    ITU-R BT.709 luma coefficients 0.2126 / 0.7152 / 0.0722). */
module Grayscale {
  import opened Grids
  import opened PixelExtraction

  /** The weights, in hundredths. */
  const WeightR: nat := 21
  const WeightG: nat := 72
  const WeightB: nat := 7
  const WeightTotal: nat := 100

  /** The weighted channel sum, scaled by `WeightTotal`: a specification
      helper that `Luma`'s contract is stated in. */
  function WeightedSum(p: Pixel): nat {
    WeightR * p.r + WeightG * p.g + WeightB * p.b
  }

  /** The luminance byte of a pixel: the weighted sum divided by the weight
      total and truncated, which never leaves the byte range. */
  function Luma(p: Pixel): (g: byte)
    ensures WeightTotal * g <= WeightedSum(p) < WeightTotal * (g + 1)
  {
    WeightedSum(p) / WeightTotal
  }

  /** Luminance never decreases when any channel increases. */
  lemma LumaMonotone(p: Pixel, q: Pixel)
    requires p.r <= q.r && p.g <= q.g && p.b <= q.b
    ensures Luma(p) <= Luma(q)
  {
    assert WeightedSum(p) <= WeightedSum(q);
  }

  /** Since the weights sum to the total, luminance lies between the darkest
      and the brightest channel of the pixel. */
  lemma LumaBetweenChannels(p: Pixel, lo: byte, hi: byte)
    requires lo <= p.r && lo <= p.g && lo <= p.b
    requires p.r <= hi && p.g <= hi && p.b <= hi
    ensures lo <= Luma(p) <= hi
  {
    assert WeightTotal * lo <= WeightedSum(p) <= WeightTotal * hi;
  }

  /** A pixel whose three channels are equal keeps that value as its
      luminance. */
  lemma LumaOfNeutral(v: byte)
    ensures Luma(Pixel(v, v, v)) == v
  {
    LumaBetweenChannels(Pixel(v, v, v), v, v);
  }

  /** rgbToGrayScale: the width is the first row's length; each output row
      is that wide and holds the luminance of the pixels above it. The first
      row is indexed, so there must be one, and every row must be at least
      as long as it. */
  method RgbToGrayScale(m: seq<seq<Pixel>>) returns (g: seq<seq<byte>>)
    requires |m| >= 1
    requires RowsAtLeast(m, |m[0]|)
    ensures |g| == |m|
    ensures Rectangular(g, |m[0]|)
    ensures forall y, x :: 0 <= y < |g| && 0 <= x < |g[y]| ==> g[y][x] == Luma(m[y][x])
  {
    var height := |m|;
    var width := |m[0]|;
    g := [];
    var y := 0;
    while y < height
      invariant y <= height
      invariant |g| == y
      invariant Rectangular(g, width)
      invariant forall j, x :: 0 <= j < y && 0 <= x < |g[j]| ==> g[j][x] == Luma(m[j][x])
    {
      var row: seq<byte> := [];
      var x := 0;
      while x < width
        invariant x <= width
        invariant |row| == x
        invariant forall i :: 0 <= i < x ==> row[i] == Luma(m[y][i])
      {
        var pixel := m[y][x];
        row := row + [(WeightR * pixel.r + WeightG * pixel.g + WeightB * pixel.b) / WeightTotal];
        x := x + 1;
      }
      g := g + [row];
      y := y + 1;
    }
  }
}
