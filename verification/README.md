# ASCII-art generator: pixel pipeline in Dafny

This project models the pure core of an image-to-ASCII-art converter
(`cmd/main.go`). The core runs in four stages:

1. **Pixel extraction** (`getPixelMatrix`). Each 16-bit colour channel of a
   decoded image is narrowed to 8 bits (`uint8(v >> 8)`). The result is a
   `height` x `width` grid of `Pixel`s.
2. **Grayscale conversion** (`rgbToGrayScale`). Each pixel becomes one
   luminance byte, using the weights 0.21 / 0.72 / 0.07. These weights are a
   rounding of the ITU-R BT.709 luma coefficients.
3. **ASCII mapping** (`grayscaleAsciiImage`). The mapper keeps `height / 2`
   rows, because glyph cells are about twice as tall as wide. Each sample is
   mapped onto the ramp `.:-=+*#%@`.
4. **Canvas layout** (`saveAsciiArtAsImage`). This stage finds the longest
   line and sizes the canvas in 7 x 13 glyph cells with a 10-pixel margin. It
   then places each line's pen position.

Modules, one per file:

- `Grids` (`grids.dfy`): Go's `uint8` and 16-bit channel values as bounded
  integers, plus row-length predicates.
- `Arith` (`arith.dfy`): two division facts.
- `PixelExtraction` (`pixels.dfy`)
- `Grayscale` (`grayscale.dfy`)
- `AsciiMapper` (`ascii.dfy`)
- `ArtRasterizer` (`canvas.dfy`)
- `Pipeline` (`pipeline.dfy`): the chain `main` runs.

The floating-point expressions in the mapper are replaced by exact integer
equivalents:

- `sampleY` becomes `(y * h) / (h / 2)`. The model proves this is exactly
  `2y`, so the clamp to `h - 1` is kept in the model but never fires.
- `sampleX` becomes `(x * w) / w`, which is `x`.
- The ramp index becomes `(8 * g) / 255`.

All three replacements are exact in real arithmetic:

- With `s = h / 2` and `y < s`, `y * (h / s)` is `2y + y*(h - 2s)/s`. That
  is `2y` for even `h` and `2y + y/s` for odd `h`, so its floor is `2y`.
- `w / w` is 1, so `x * (w / w)` is `x`.
- `8g / 255` is an integer only at `g = 0` and `g = 255`, and the floor of
  the quotient is `(8 * g) / 255` for every byte.

Grayscale is modelled as `(21R + 72G + 7B) / 100`. This is an idealisation
of the `float64` expression on line 71.

Three facts about the code shape the model:

- An image with no rows panics, because `rgbToGrayScale` reads row 0
  (cmd/main.go:60) and so does `grayscaleAsciiImage` (cmd/main.go:114). The
  model therefore requires at least one row.
- `len(line)` at cmd/main.go:161 counts UTF-8 bytes, not characters, and the
  model measures bytes (`ByteLen`). For the ramp's ASCII lines the two agree
  (`Pipeline.MaxLineLengthOfRampLines`).
- Channels are narrowed by a right shift of 8 (cmd/main.go:47-49), and the
  model does exactly that.

Requirements on callers are only what the code needs to avoid an index
fault:

- `rgbToGrayScale` needs every row to be at least as long as the first.
- `grayscaleAsciiImage` needs that only of the rows it samples, the even
  rows below `2 * (h / 2)`.

## Model

| member | source | states |
|---|---|---|
| PixelExtraction.Narrow | cmd/main.go:47-49 | the narrowed channel `n` is the high byte of the 16-bit value `v`: `256n <= v < 256(n+1)`, so it lies in [0,255] and the `uint8` conversion loses nothing |
| PixelExtraction.NarrowMonotone | cmd/main.go:47-49 | a larger 16-bit channel never narrows to a smaller byte |
| PixelExtraction.NarrowUndoesWidening | cmd/main.go:41-49 | an 8-bit channel widened to 16 bits as `n * 0x101` narrows back to `n` |
| PixelExtraction.NarrowPixel | cmd/main.go:40-50 | each of the stored pixel's three channels is the high byte of the matching 16-bit channel; alpha is not kept |
| PixelExtraction.GetPixelMatrix | cmd/main.go:23-55 | the grid has exactly `height` rows of exactly `width` pixels, and pixel (y, x) is the narrowed colour at `At(x, y)` with alpha dropped |
| Grayscale.Luma | cmd/main.go:71-72 | the gray byte `g` is the truncation of the weighted sum: `100g <= 21R + 72G + 7B < 100(g+1)`, and lies in [0,255] |
| Grayscale.LumaMonotone | cmd/main.go:71-72 | gray never decreases when any channel increases |
| Grayscale.LumaBetweenChannels | cmd/main.go:71-72 | with the exact weighted sum, gray lies between the pixel's smallest and largest channel |
| Grayscale.LumaOfNeutral | cmd/main.go:71-72 | with the exact weighted sum, a pixel with three equal channels `v` has gray `v` |
| Grayscale.RgbToGrayScale | cmd/main.go:58-76 | given at least one row and rows as long as the first, the output has as many rows as the input, each as long as the first input row, holding the gray of the pixel at the same position |
| AsciiMapper.SampleHeight | cmd/main.go:116-118 | the number of output lines `s` is `height / 2` truncated: `2s <= height < 2(s+1)` |
| AsciiMapper.SampleRow | cmd/main.go:118-132 | the source row of output line `y` is exactly `2y` and below the grid height, so the clamp never fires |
| AsciiMapper.SampleRowIsEven | cmd/main.go:118-127 | the unclamped sample row `(y*h)/(h/2)` equals `2y` for every `y < h/2` |
| AsciiMapper.SampleCol | cmd/main.go:117-135 | the source column of output column `x` is `x` itself, inside the row |
| AsciiMapper.SampleRowIncreasing | cmd/main.go:124-127 | source rows strictly increase with the output line, at least two apart |
| AsciiMapper.RampIndex | cmd/main.go:138 | the ramp index `i` is below the ramp length 9 and is the truncation of `8g/255`: `255i <= 8g < 255(i+1)` |
| AsciiMapper.RampChar | cmd/main.go:138-140 | the symbol written for gray `g` is the ramp symbol at the position `i` with `255i <= 8g < 255(i+1)` |
| AsciiMapper.RampIndexMonotone | cmd/main.go:138 | a brighter gray never maps to an earlier ramp position |
| AsciiMapper.RampEnds | cmd/main.go:112-140 | gray 0 maps to `.` and gray 255 maps to `@` |
| AsciiMapper.RampSymbolsDistinct | cmd/main.go:112 | the nine ramp symbols are pairwise distinct |
| AsciiMapper.RampCharDeterminesIndex | cmd/main.go:138-140 | two grays get the same symbol exactly when they get the same ramp index |
| AsciiMapper.GrayscaleAsciiImage | cmd/main.go:111-149 | the output has `h/2` lines (none for `h = 1`), each as long as the first grid row; symbol (y, x) encodes the gray at row `2y`, column `x`; every symbol is in the ramp |
| ArtRasterizer.Utf8Len | cmd/main.go:161-162 | each character takes 1 to 4 bytes, and exactly 1 when it is ASCII |
| ArtRasterizer.ByteLen | cmd/main.go:161-162 | the byte length of a line is between its character count and four times that |
| ArtRasterizer.AsciiByteLen | cmd/main.go:161-162 | a line of ASCII characters is as many bytes long as it has characters |
| ArtRasterizer.MaxLineLength | cmd/main.go:158-164 | the result is at least every line's byte length and equals some line's byte length, or is 0 when there are no lines |
| ArtRasterizer.Layout | cmd/main.go:153-188 | one pen position per line, at x = 10 and on baseline `10 + 13(i+1)`; the 7 x 13 box above each baseline lies within the 10-pixel margins; the canvas width is exactly that of the widest line plus margins (20 with no lines), and its height puts the last baseline on the bottom margin (20 with no lines) |
| ArtRasterizer.FixedI | cmd/main.go:185-188 | a whole-pixel position `n` becomes a 26.6 fixed-point value with integer part `n` and fractional part 0 |
| ArtRasterizer.CanvasSize | cmd/main.go:158-168 | for any `w` that is the longest line length (at least every line's length and equal to one, or 0 with no lines) the canvas is `7w + 20` wide and `13 * lineCount + 20` high |
| ArtRasterizer.BaselinesIncreasing | cmd/main.go:183-188 | a later line's baseline is at least one glyph cell below an earlier line's |
| Pipeline.RampIsAscii | cmd/main.go:112 | every ramp symbol is a one-byte character |
| Pipeline.MaxLineLengthOfRampLines | cmd/main.go:158-164 | for mapper output of `w` symbols per line, the longest line is `w` bytes, or 0 when there are no lines |
| Pipeline.Convert | cmd/main.go:224-237 | for an image with at least one row: gray grid of the image's shape with gray (y, x) from the pixel at (x, y); `height/2` lines of `width` symbols sampling row `2y`; canvas `7*width + 20` (or 20 with no lines) by `13*lines + 20` |
| Pipeline.MidGrayExample | cmd/main.go:224-234 | a 10 x 4 image of mid gray (`0x8080` per channel) gives two lines of ten `+` on a 90 x 46 canvas |

## Left out

- File I/O and encoding are not modelled. This covers opening and decoding
  the input, `saveGrayScaleImage`, creating and PNG-encoding the output, and
  `main`'s messages (cmd/main.go:78-109, 193-243). They are boundary code
  over library calls.
- Glyph rendering (`font.Drawer`, `basicfont.Face7x13`, the transparent
  fill) is not modelled. Only the canvas size and the pen positions passed
  to the drawer are modelled (cmd/main.go:170-191).
- `image.Image` and `RGBA()` are abstracted. The image is a width, a height
  and a total colour lookup returning 16-bit channels. `Bounds().Min` is
  ignored, as the code ignores it.
- Grayscale.Luma is exact rational arithmetic truncated to an integer. Go
  evaluates `0.21*R + 0.72*G + 0.07*B` in IEEE-754 doubles before
  truncating, so where the exact sum is a multiple of 100 the double can
  fall just below it and Go's byte is one less. Which inputs drop depends
  on how the expression is evaluated. The Go language allows a compiler to
  fuse a multiply and an add into one rounding, and the arm64, ppc64 and
  s390x back ends do so; amd64 does not by default. When nothing is fused,
  white (255, 255, 255) gives 254.99999999999997 and Go stores 254. Fusing
  only changes which levels drop, and when `0.21*R` is fused into the sum,
  white gives exactly 255.0. The exact arithmetic of the model matches
  none of these evaluation orders on every input.
- Grayscale.LumaOfNeutral: holds for the exact weighted sum only. When the
  multiply-adds are not fused, 46 of the 256 neutral levels (5, 10, 20, 40,
  ..., 255) come out one lower than `v` through line 71. A fused
  evaluation drops a different set: 32 levels (39, 41, 43, 78, ...) when
  `0.72*G` is fused.
- Grayscale.LumaBetweenChannels: the lower bound holds for the exact
  weighted sum only. The neutral levels that drop under a given evaluation
  order come out one below the smallest channel.
- AsciiMapper.RampEnds: `RampChar(255) == '@'` is a fact about the ramp
  mapping of line 138 alone. When the multiply-adds of line 71 are not
  fused (Go's default on amd64), no pixel reaches gray 255, so `@` never
  appears in the output and white becomes `%`. Under the fused order in
  which white gives exactly 255.0, white maps to `@`.
- ArtRasterizer.Layout: the box it places is the 13 pixels above each
  baseline. The font draws 11 pixels above and 2 below, so the last line's
  descenders reach 2 pixels into the bottom margin.
- AsciiMapper.SampleRow and AsciiMapper.SampleCol use exact integer
  division in place of the double-precision `stepY`/`stepX` products.
  Rounding in those doubles is not modelled.
- AsciiMapper.RampIndex uses `(8*g)/255` in place of the double expression
  `int(g / 255.0 * 8)`. The two are equal for every byte `g`: the quotient
  is an integer only at 0 and 255, and `255 / 255.0` is exactly 1.0.
- Fixed-width overflow is not modelled. This covers Go's 64-bit `int` canvas
  sizes and the `int32` 26.6 fixed-point pen positions. Integers here are
  unbounded.
- Images with no rows are not given a result. The code panics on them, so
  `RgbToGrayScale`, `GrayscaleAsciiImage` and `Convert` require at least one
  row.
