/** Pixel colours and bitmaps shared by the quantizer engine, the colour mapper and the canvas. */
module Drawing {

  /** An 8-bit colour channel. */
  type Byte = x: int | 0 <= x < 256

  /** A 32-bit RGBA colour; equality is channel by channel, as for the cache key. */
  datatype PxColor = PxColor(r: Byte, g: Byte, b: Byte, a: Byte)

  /** Below this alpha a pixel counts as transparent ("air"). */
  const ALPHA_THRESHOLD: int := 32

  /** The fully transparent colour written over transparent source pixels. */
  const TRANSPARENT: PxColor := PxColor(0, 0, 0, 0)

  predicate IsTransparent(c: PxColor) {
    c.a < ALPHA_THRESHOLD
  }

  /** A bitmap as a sequence of rows. */
  type PxBitmap = seq<seq<PxColor>>

  /** Two bitmaps have the same number of rows and the same width row by row. */
  predicate SameShape(p: PxBitmap, q: PxBitmap) {
    |p| == |q| && forall y :: 0 <= y < |p| ==> |p[y]| == |q[y]|
  }
}
