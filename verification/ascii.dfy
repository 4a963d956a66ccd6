/** The ASCII mapper: samples every other grayscale row (glyph cells are
    about twice as tall as wide) and maps each sampled luminance onto a
    9-symbol ramp from sparse to dense. */
module AsciiMapper {
  import opened Grids
  import opened Arith

  /** The character ramp, darkest first. */
  const Ramp: string := ".:-=+*#%@"

  /** The vertical downsampling factor. */
  const AspectRatio: nat := 2

  /** Number of output lines for a grid of height `h`: `int(h / 2.0)`. */
  function SampleHeight(h: nat): (s: nat)
    ensures AspectRatio * s <= h < AspectRatio * (s + 1)
  {
    h / AspectRatio
  }

  /** The source row of output line `y`: `int(y * (h / sampleHeight))`,
      clamped to `h - 1`. With `h = 2s` or `h = 2s + 1` the product is
      `2y + y*(h - 2s)/s` with `y < s`, so it is exactly row `2y`: the clamp
      never fires and the mapper reads the even rows. */
  function SampleRow(y: nat, h: nat): (r: int)
    requires y < SampleHeight(h)
    ensures r == AspectRatio * y
    ensures r < h
  {
    SampleRowIsEven(y, h);
    var raw := (y * h) / SampleHeight(h);
    if raw >= h then h - 1 else raw
  }

  /** The unclamped product `(y * h) / (h / 2)` is exactly `2y`. */
  lemma SampleRowIsEven(y: nat, h: nat)
    requires y < SampleHeight(h)
    ensures (y * h) / SampleHeight(h) == AspectRatio * y
  {
    var s := SampleHeight(h);
    if h == AspectRatio * s {
      assert y * h == s * (AspectRatio * y);
    } else {
      assert h == AspectRatio * s + 1;
      assert y * h == s * (AspectRatio * y) + y;
    }
    assert s * (AspectRatio * y + 1) == s * (AspectRatio * y) + s;
    DivideBetween(y * h, s, AspectRatio * y);
  }

  /** The source column of output column `x`: `int(x * (w / w))`, clamped to
      `w - 1`; the step is exactly one, so it is `x` itself. */
  function SampleCol(x: nat, w: nat): (r: int)
    requires x < w
    ensures r == x
  {
    DivideBetween(x * w, w, x);
    var raw := (x * w) / w;
    if raw >= w then w - 1 else raw
  }

  /** Source rows are strictly increasing in the output line, at least two
      apart. */
  lemma SampleRowIncreasing(y1: nat, y2: nat, h: nat)
    requires y1 < y2 < SampleHeight(h)
    ensures SampleRow(y1, h) + AspectRatio <= SampleRow(y2, h)
  {
  }

  /** The ramp index of a luminance: `int(g / 255.0 * 8)`, i.e. the
      largest `i` with `255 * i <= 8 * g`. */
  function RampIndex(g: byte): (i: nat)
    ensures i < |Ramp|
    ensures 255 * i <= (|Ramp| - 1) * g < 255 * (i + 1)
  {
    (g * (|Ramp| - 1)) / 255
  }

  /** The ramp symbol for a luminance: the one at the position `i` with
      `255 * i <= 8 * g < 255 * (i + 1)`. */
  function RampChar(g: byte): (c: char)
    ensures exists i :: 0 <= i < |Ramp| && Ramp[i] == c && 255 * i <= (|Ramp| - 1) * g < 255 * (i + 1)
  {
    Ramp[RampIndex(g)]
  }

  /** Brighter luminance never maps to an earlier ramp position. */
  lemma RampIndexMonotone(g1: byte, g2: byte)
    requires g1 <= g2
    ensures RampIndex(g1) <= RampIndex(g2)
  {
    assert (|Ramp| - 1) * g1 <= (|Ramp| - 1) * g2;
  }

  /** Black maps to the sparsest symbol and white to the densest. */
  lemma RampEnds()
    ensures RampChar(0) == '.'
    ensures RampChar(255) == '@'
  {
  }

  /** No symbol appears twice in the ramp. */
  lemma RampSymbolsDistinct()
    ensures forall i, j :: 0 <= i < j < |Ramp| ==> Ramp[i] != Ramp[j]
  {
  }

  /** Two luminances get the same symbol exactly when they get the same
      ramp index, so the written symbol tells which index was chosen. */
  lemma RampCharDeterminesIndex(g1: byte, g2: byte)
    ensures RampChar(g1) == RampChar(g2) <==> RampIndex(g1) == RampIndex(g2)
  {
    RampSymbolsDistinct();
  }

  /** The rows the mapper reads (row `2y` for every output line `y`) are all
      at least as long as the first row. */
  predicate SampledRowsCover(g: seq<seq<byte>>)
    requires |g| >= 1
  {
    forall r :: 0 <= r < AspectRatio * SampleHeight(|g|) && r % AspectRatio == 0 ==> |g[0]| <= |g[r]|
  }

  /** grayscaleAsciiImage: `h / 2` lines, each as wide as the first grid
      row, whose `x`-th symbol encodes the luminance at row `2y`, column
      `x`. Zero lines for a one-row grid. */
  method GrayscaleAsciiImage(g: seq<seq<byte>>) returns (lines: seq<string>)
    requires |g| >= 1
    requires SampledRowsCover(g)
    ensures |lines| == SampleHeight(|g|)
    ensures Rectangular(lines, |g[0]|)
    ensures forall y, x :: 0 <= y < |lines| && 0 <= x < |lines[y]| ==>
              lines[y][x] == RampChar(g[AspectRatio * y][x])
    ensures forall y, x :: 0 <= y < |lines| && 0 <= x < |lines[y]| ==> lines[y][x] in Ramp
  {
    var height := |g|;
    var width := |g[0]|;
    var sampleWidth := width;
    var sampleHeight := SampleHeight(height);
    lines := [];
    var y := 0;
    while y < sampleHeight
      invariant y <= sampleHeight
      invariant |lines| == y
      invariant Rectangular(lines, width)
      invariant forall j, x :: 0 <= j < y && 0 <= x < |lines[j]| ==>
                  lines[j][x] == RampChar(g[AspectRatio * j][x])
    {
      var line: string := [];
      var x := 0;
      while x < sampleWidth
        invariant x <= sampleWidth
        invariant |line| == x
        invariant forall i :: 0 <= i < x ==> line[i] == RampChar(g[AspectRatio * y][i])
      {
        var sampleY := SampleRow(y, height);
        var sampleX := SampleCol(x, width);
        assert |g[0]| <= |g[sampleY]|;
        var gray := g[sampleY][sampleX];
        var index := (gray * (|Ramp| - 1)) / 255;
        line := line + [Ramp[index]];
        x := x + 1;
      }
      lines := lines + [line];
      y := y + 1;
    }
  }
}
