/**
 * Pixels, rectangles and pixel buffers as values.
 *
 * The repository's `png.Image` type (an input and an output `*image.RGBA64` over the same
 * bounds) is not part of this model; what the effect engine relies on of it is stated here:
 * channels are 16-bit, a rectangle is Min-inclusive and Max-exclusive, reading a point outside
 * the rectangle yields transparent black and writing one is ignored.
 */
module Raster {

  /** A colour channel as `color.RGBA64` stores it. */
  type Channel = c: int | 0 <= c <= 65535

  datatype Pixel = Pixel(r: Channel, g: Channel, b: Channel, a: Channel)

  /** What a pixel buffer yields for a point outside its rectangle. */
  const Transparent: Pixel := Pixel(0, 0, 0, 0)

  /** An `image.Rectangle`: the points with minX <= x < maxX and minY <= y < maxY. */
  datatype Rect = Rect(minX: int, minY: int, maxX: int, maxY: int) {
    predicate WellFormed() { minX <= maxX && minY <= maxY }

    function Width(): nat
      requires WellFormed()
    {
      maxX - minX
    }

    function Height(): nat
      requires WellFormed()
    {
      maxY - minY
    }

    predicate Contains(x: int, y: int) { minX <= x < maxX && minY <= y < maxY }
  }

  /** Pixel rows from top to bottom; row i holds the points whose y is the rectangle's minY + i. */
  type Raster = seq<seq<Pixel>>

  /** The raster covers the rectangle exactly. */
  predicate Shaped(p: Raster, bounds: Rect) {
    && bounds.WellFormed()
    && |p| == bounds.Height()
    && forall i | 0 <= i < |p| :: |p[i]| == bounds.Width()
  }

  /** `At(x, y)` of a buffer whose contents are `p`. */
  function PixelAt(p: Raster, bounds: Rect, x: int, y: int): (q: Pixel)
    requires Shaped(p, bounds)
    ensures !bounds.Contains(x, y) ==> q == Transparent
  {
    if bounds.Contains(x, y) then p[y - bounds.minY][x - bounds.minX] else Transparent
  }

  /** Two rasters of the same shape that agree on every pixel are equal. */
  lemma SameRaster(p: Raster, q: Raster, bounds: Rect)
    requires Shaped(p, bounds) && Shaped(q, bounds)
    requires forall i, j | 0 <= i < |p| && 0 <= j < |p[i]| :: p[i][j] == q[i][j]
    ensures p == q
  {
    forall i | 0 <= i < |p|
      ensures p[i] == q[i]
    {
      assert |p[i]| == |q[i]|;
    }
  }

  /**
   * The channel clamp: a value below the channel range becomes 0, one above it becomes 65535,
   * and one inside it keeps its integer part (the conversion to `uint16` truncates).
   */
  function Clamp(v: real): (c: Channel)
    ensures v < 0.0 ==> c == 0
    ensures v > 65535.0 ==> c == 65535
    ensures 0.0 <= v <= 65535.0 ==> c as real <= v < c as real + 1.0
  {
    if v < 0.0 then 0 else if v > 65535.0 then 65535 else v.Floor
  }

  /** Clamping a value that is already a channel value changes nothing. */
  lemma ClampIdempotent(v: real)
    ensures Clamp(Clamp(v) as real) == Clamp(v)
  {
  }

  /** The two buffers of an image, as values: effects read `input` and write `output`. */
  datatype ImageState = ImageState(bounds: Rect, input: Raster, output: Raster) {
    predicate Valid() { Shaped(input, bounds) && Shaped(output, bounds) }

    /** `SwapBuffers`: the output becomes the next effect's input and vice versa. */
    function Swapped(): ImageState { ImageState(bounds, output, input) }
  }

  /** An image a loader can hand out: both buffers cover the bounds. */
  type Picture = s: ImageState | s.Valid() witness ImageState(Rect(0, 0, 0, 0), [], [])
}
