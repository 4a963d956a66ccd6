/** Value types shared by every stage of the pipeline: Go's fixed-width
    unsigned integers as bounded `int`s, and the row-length predicates that
    decide whether indexing into a grid can fault. */
module Grids {

  /** Go's `uint8`. */
  type byte = x: int | 0 <= x < 0x100

  /** A colour channel as returned by Go's `color.Color.RGBA()`: a `uint32`
      that the interface guarantees to lie in [0, 0xffff]. */
  type u16 = x: int | 0 <= x < 0x1_0000

  /** Every row of `m` is at least `w` long, so `m[y][x]` is in range for all
      `y < |m|` and `x < w`. */
  predicate RowsAtLeast<T>(m: seq<seq<T>>, w: nat) {
    forall y :: 0 <= y < |m| ==> w <= |m[y]|
  }

  /** Every row of `m` is exactly `w` long. */
  predicate Rectangular<T>(m: seq<seq<T>>, w: nat) {
    forall y :: 0 <= y < |m| ==> |m[y]| == w
  }
}
