/**
 * The effect engine of proj1/png/effects.go: grayscale and 3x3 convolution over a band of
 * rows, reading an image's input buffer and writing its output buffer.
 *
 * The value-level functions (GrayRows, ConvRows, ApplyEffect) say what one pass computes;
 * the class Image holds the two buffers as arrays and its methods run the source's loops
 * and are proved to compute exactly those functions.
 */
module Effects {
  import opened Raster
  import opened Kernels

  // ---------------------------------------------------------------- grayscale

  /** The mean of the colour channels, as `float64(r+g+b) / 3` computes it. */
  function Mean(p: Pixel): real
  {
    (p.r + p.g + p.b) as real / 3.0
  }

  /** One grayscale pixel: the clamped mean of red, green and blue, alpha kept. */
  function GrayPixel(p: Pixel): Pixel
  {
    Pixel(Clamp(Mean(p)), Clamp(Mean(p)), Clamp(Mean(p)), p.a)
  }

  /** Graying a gray pixel changes nothing. */
  lemma GrayPixelIdempotent(p: Pixel)
    ensures GrayPixel(GrayPixel(p)) == GrayPixel(p)
  {
    var c := GrayPixel(p).r;
    assert Mean(GrayPixel(p)) == c as real;
  }

  /**
   * The output of `ApplyGrayscale(minY, maxY)` on buffers `src` (input) and `dst` (output):
   * the rows in [minY, maxY) become gray versions of the same rows of `src`, the other rows
   * keep what `dst` held.
   */
  function GrayRows(bounds: Rect, src: Raster, dst: Raster, minY: int, maxY: int): (out: Raster)
    requires Shaped(src, bounds) && Shaped(dst, bounds)
    ensures Shaped(out, bounds)
    ensures forall i | 0 <= i < |out| && !(minY <= bounds.minY + i < maxY) :: out[i] == dst[i]
    ensures forall i, j | 0 <= i < |out| && minY <= bounds.minY + i < maxY && 0 <= j < |out[i]| ::
              && out[i][j].r == out[i][j].g == out[i][j].b
                   == Clamp(Mean(src[i][j]))
              && out[i][j].a == src[i][j].a
  {
    seq(|dst|, i requires 0 <= i < |dst| =>
      if minY <= bounds.minY + i < maxY then
        seq(|dst[i]|, j requires 0 <= j < |dst[i]| => GrayPixel(src[i][j]))
      else dst[i])
  }

  // ---------------------------------------------------------------- convolution

  /** A position relative to (x, y): the neighbour at (x + kx, y + ky). */
  datatype Displacement = Offset(ky: int, kx: int)

  /** A position inside the 3x3 window. */
  type Offset = o: Displacement | -1 <= o.ky <= 1 && -1 <= o.kx <= 1 witness Offset(0, 0)

  /** The nine offsets in the order the loops visit them: ky outer, kx inner, both from -1 to 1. */
  const Offsets: seq<Offset> := [
    Offset(-1, -1), Offset(-1, 0), Offset(-1, 1),
    Offset( 0, -1), Offset( 0, 0), Offset( 0, 1),
    Offset( 1, -1), Offset( 1, 0), Offset( 1, 1)]

  /** The offset the loops visit after visiting m others. */
  function OffsetAt(m: nat): Offset
    requires m < 9
  {
    Offset(m / 3 - 1, m % 3 - 1)
  }

  /** The first n offsets the loops visit. */
  function Visited(n: nat): (os: seq<Offset>)
    requires n <= 9
    ensures |os| == n
  {
    if n == 0 then [] else Visited(n - 1) + [OffsetAt(n - 1)]
  }

  /** The loops visit the whole window, each offset once, in the order of Offsets. */
  lemma VisitedIsOffsets()
    ensures Visited(9) == Offsets
  {
  }

  /** The loops' counters (ky, kx) have visited 3 * (ky + 1) + (kx + 1) offsets before Offset(ky, kx). */
  lemma OffsetsInLoopOrder(ky: int, kx: int)
    requires -1 <= ky <= 1 && -1 <= kx <= 1
    ensures OffsetAt(3 * (ky + 1) + (kx + 1)) == Offset(ky, kx)
  {
  }

  /**
   * The neighbour rule: a neighbour counts when its column lies in the image and its row lies
   * in the band [minY, maxY) being processed -- the band, not the image's rows.
   */
  predicate Included(bounds: Rect, x: int, y: int, minY: int, maxY: int, o: Offset) {
    bounds.minX <= x + o.kx < bounds.maxX && minY <= y + o.ky < maxY
  }

  /** The offsets of `os` whose neighbour counts, in order. */
  function Contributors(bounds: Rect, x: int, y: int, minY: int, maxY: int, os: seq<Offset>): (cs: seq<Offset>)
    ensures forall o :: o in cs <==> o in os && Included(bounds, x, y, minY, maxY, o)
    ensures |cs| <= |os|
  {
    if os == [] then []
    else if Included(bounds, x, y, minY, maxY, os[|os| - 1]) then
      Contributors(bounds, x, y, minY, maxY, os[..|os| - 1]) + [os[|os| - 1]]
    else
      Contributors(bounds, x, y, minY, maxY, os[..|os| - 1])
  }

  datatype Chan = Red | Green | Blue

  function ChannelOf(p: Pixel, c: Chan): Channel {
    match c
    case Red => p.r
    case Green => p.g
    case Blue => p.b
  }

  /** What the neighbour at offset `o` adds to channel `c`: its value times the kernel weight. */
  function Term(src: Raster, bounds: Rect, k: Kernel, x: int, y: int, o: Offset, c: Chan): real
    requires Shaped(src, bounds)
  {
    ChannelOf(PixelAt(src, bounds, x + o.kx, y + o.ky), c) as real * k[o.ky + 1][o.kx + 1]
  }

  /** The sum of the terms of `os`, added in order. */
  function WeightedSum(src: Raster, bounds: Rect, k: Kernel, x: int, y: int, os: seq<Offset>, c: Chan): real
    requires Shaped(src, bounds)
  {
    if os == [] then 0.0
    else WeightedSum(src, bounds, k, x, y, os[..|os| - 1], c) + Term(src, bounds, k, x, y, os[|os| - 1], c)
  }

  /** What the neighbour at `o` adds to the running sum: its term if it counts, nothing otherwise. */
  function Contribution(src: Raster, bounds: Rect, k: Kernel, x: int, y: int, minY: int, maxY: int, o: Offset, c: Chan): real
    requires Shaped(src, bounds)
  {
    if Included(bounds, x, y, minY, maxY, o) then Term(src, bounds, k, x, y, o, c) else 0.0
  }

  /** The running sum after the loops have visited the first n offsets. */
  function WindowSum(src: Raster, bounds: Rect, k: Kernel, x: int, y: int, minY: int, maxY: int, n: nat, c: Chan): real
    requires Shaped(src, bounds) && n <= 9
  {
    if n == 0 then 0.0
    else WindowSum(src, bounds, k, x, y, minY, maxY, n - 1, c) + Contribution(src, bounds, k, x, y, minY, maxY, OffsetAt(n - 1), c)
  }

  /** The sum of channel `c` over the counted neighbours of (x, y). */
  function ChannelSum(src: Raster, bounds: Rect, k: Kernel, x: int, y: int, minY: int, maxY: int, c: Chan): real
    requires Shaped(src, bounds)
  {
    WindowSum(src, bounds, k, x, y, minY, maxY, 9, c)
  }

  /** The contribution of a counted neighbour, given its pixel and its weight. */
  lemma CountedContribution(src: Raster, bounds: Rect, k: Kernel, x: int, y: int, minY: int, maxY: int,
                            o: Offset, p: Pixel, weight: real, c: Chan)
    requires Shaped(src, bounds) && Included(bounds, x, y, minY, maxY, o)
    requires p == PixelAt(src, bounds, x + o.kx, y + o.ky) && weight == k[o.ky + 1][o.kx + 1]
    ensures Contribution(src, bounds, k, x, y, minY, maxY, o, c) == ChannelOf(p, c) as real * weight
  {
  }

  /** Visiting the offset (ky, kx) when its neighbour counts adds that neighbour's weighted channel. */
  lemma CountedStep(src: Raster, bounds: Rect, k: Kernel, x: int, y: int, minY: int, maxY: int,
                    ky: int, kx: int, n: nat, v: int, weight: real, c: Chan)
    requires Shaped(src, bounds) && -1 <= ky <= 1 && -1 <= kx <= 1 && n == 3 * (ky + 1) + (kx + 1)
    requires bounds.minX <= x + kx < bounds.maxX && minY <= y + ky < maxY
    requires v == ChannelOf(PixelAt(src, bounds, x + kx, y + ky), c) && weight == k[ky + 1][kx + 1]
    ensures WindowSum(src, bounds, k, x, y, minY, maxY, n + 1, c)
            == WindowSum(src, bounds, k, x, y, minY, maxY, n, c) + v as real * weight
  {
    var p := PixelAt(src, bounds, x + kx, y + ky);
    OffsetsInLoopOrder(ky, kx);
    var o := OffsetAt(n);
    assert Included(bounds, x, y, minY, maxY, o);
    CountedContribution(src, bounds, k, x, y, minY, maxY, o, p, weight, c);
    assert WindowSum(src, bounds, k, x, y, minY, maxY, n + 1, c)
        == WindowSum(src, bounds, k, x, y, minY, maxY, n, c) + Contribution(src, bounds, k, x, y, minY, maxY, o, c);
  }

  /** Visiting the offset (ky, kx) when its neighbour does not count leaves the sum as it is. */
  lemma SkippedStep(src: Raster, bounds: Rect, k: Kernel, x: int, y: int, minY: int, maxY: int,
                    ky: int, kx: int, n: nat, c: Chan)
    requires Shaped(src, bounds) && -1 <= ky <= 1 && -1 <= kx <= 1 && n == 3 * (ky + 1) + (kx + 1)
    requires !(bounds.minX <= x + kx < bounds.maxX && minY <= y + ky < maxY)
    ensures WindowSum(src, bounds, k, x, y, minY, maxY, n + 1, c)
            == WindowSum(src, bounds, k, x, y, minY, maxY, n, c)
  {
    OffsetsInLoopOrder(ky, kx);
  }

  /** CountedStep for the three colour channels of the neighbour's pixel at once. */
  lemma CountedPixelStep(src: Raster, bounds: Rect, k: Kernel, x: int, y: int, minY: int, maxY: int,
                         ky: int, kx: int, n: nat, p: Pixel, weight: real)
    requires Shaped(src, bounds) && -1 <= ky <= 1 && -1 <= kx <= 1 && n == 3 * (ky + 1) + (kx + 1)
    requires bounds.minX <= x + kx < bounds.maxX && minY <= y + ky < maxY
    requires p == PixelAt(src, bounds, x + kx, y + ky) && weight == k[ky + 1][kx + 1]
    ensures WindowSum(src, bounds, k, x, y, minY, maxY, n + 1, Red) == WindowSum(src, bounds, k, x, y, minY, maxY, n, Red) + p.r as real * weight
    ensures WindowSum(src, bounds, k, x, y, minY, maxY, n + 1, Green) == WindowSum(src, bounds, k, x, y, minY, maxY, n, Green) + p.g as real * weight
    ensures WindowSum(src, bounds, k, x, y, minY, maxY, n + 1, Blue) == WindowSum(src, bounds, k, x, y, minY, maxY, n, Blue) + p.b as real * weight
  {
    assert WindowSum(src, bounds, k, x, y, minY, maxY, n + 1, Red) == WindowSum(src, bounds, k, x, y, minY, maxY, n, Red) + p.r as real * weight by {
      CountedStep(src, bounds, k, x, y, minY, maxY, ky, kx, n, p.r, weight, Red);
    }
    assert WindowSum(src, bounds, k, x, y, minY, maxY, n + 1, Green) == WindowSum(src, bounds, k, x, y, minY, maxY, n, Green) + p.g as real * weight by {
      CountedStep(src, bounds, k, x, y, minY, maxY, ky, kx, n, p.g, weight, Green);
    }
    assert WindowSum(src, bounds, k, x, y, minY, maxY, n + 1, Blue) == WindowSum(src, bounds, k, x, y, minY, maxY, n, Blue) + p.b as real * weight by {
      CountedStep(src, bounds, k, x, y, minY, maxY, ky, kx, n, p.b, weight, Blue);
    }
  }

  /** SkippedStep for the three colour channels at once. */
  lemma SkippedPixelStep(src: Raster, bounds: Rect, k: Kernel, x: int, y: int, minY: int, maxY: int,
                         ky: int, kx: int, n: nat)
    requires Shaped(src, bounds) && -1 <= ky <= 1 && -1 <= kx <= 1 && n == 3 * (ky + 1) + (kx + 1)
    requires !(bounds.minX <= x + kx < bounds.maxX && minY <= y + ky < maxY)
    ensures WindowSum(src, bounds, k, x, y, minY, maxY, n + 1, Red) == WindowSum(src, bounds, k, x, y, minY, maxY, n, Red)
    ensures WindowSum(src, bounds, k, x, y, minY, maxY, n + 1, Green) == WindowSum(src, bounds, k, x, y, minY, maxY, n, Green)
    ensures WindowSum(src, bounds, k, x, y, minY, maxY, n + 1, Blue) == WindowSum(src, bounds, k, x, y, minY, maxY, n, Blue)
  {
    SkippedStep(src, bounds, k, x, y, minY, maxY, ky, kx, n, Red);
    SkippedStep(src, bounds, k, x, y, minY, maxY, ky, kx, n, Green);
    SkippedStep(src, bounds, k, x, y, minY, maxY, ky, kx, n, Blue);
  }

  /**
   * The running sum is the sum of the terms of exactly the counted neighbours among the
   * offsets visited so far, in visiting order.
   */
  lemma {:induction false} WindowSumCountsIncluded(src: Raster, bounds: Rect, k: Kernel, x: int, y: int, minY: int, maxY: int, n: nat, c: Chan)
    requires Shaped(src, bounds) && n <= 9
    ensures WindowSum(src, bounds, k, x, y, minY, maxY, n, c)
            == WeightedSum(src, bounds, k, x, y, Contributors(bounds, x, y, minY, maxY, Visited(n)), c)
  {
    if n > 0 {
      WindowSumCountsIncluded(src, bounds, k, x, y, minY, maxY, n - 1, c);
      var cs := Contributors(bounds, x, y, minY, maxY, Visited(n - 1));
      assert Visited(n)[..n - 1] == Visited(n - 1);
      if Included(bounds, x, y, minY, maxY, OffsetAt(n - 1)) {
        assert (cs + [OffsetAt(n - 1)])[..|cs|] == cs;
      }
    }
  }

  /**
   * The pixel `ApplyConvolution` writes at (x, y): every colour channel clamped from that
   * channel's own neighbourhood sum, and the alpha of the input pixel at (x, y).
   */
  function ConvPixel(src: Raster, bounds: Rect, k: Kernel, x: int, y: int, minY: int, maxY: int): Pixel
    requires Shaped(src, bounds)
  {
    Pixel(Clamp(ChannelSum(src, bounds, k, x, y, minY, maxY, Red)),
          Clamp(ChannelSum(src, bounds, k, x, y, minY, maxY, Green)),
          Clamp(ChannelSum(src, bounds, k, x, y, minY, maxY, Blue)),
          PixelAt(src, bounds, x, y).a)
  }

  /** The pixel assembled from the three channel sums is the ConvPixel of (x, y). */
  lemma ConvPixelFromSums(src: Raster, bounds: Rect, k: Kernel, x: int, y: int, minY: int, maxY: int,
                          rSum: real, gSum: real, bSum: real, a: Channel)
    requires Shaped(src, bounds)
    requires rSum == ChannelSum(src, bounds, k, x, y, minY, maxY, Red)
    requires gSum == ChannelSum(src, bounds, k, x, y, minY, maxY, Green)
    requires bSum == ChannelSum(src, bounds, k, x, y, minY, maxY, Blue)
    requires a == PixelAt(src, bounds, x, y).a
    ensures Pixel(Clamp(rSum), Clamp(gSum), Clamp(bSum), a) == ConvPixel(src, bounds, k, x, y, minY, maxY)
  {
  }

  /**
   * The output of `ApplyConvolution(k, minY, maxY)`: each pixel of a row in [minY, maxY) is
   * the ConvPixel of its position; the other rows keep what `dst` held.
   */
  function ConvRows(bounds: Rect, src: Raster, dst: Raster, k: Kernel, minY: int, maxY: int): (out: Raster)
    requires Shaped(src, bounds) && Shaped(dst, bounds)
    ensures Shaped(out, bounds)
    ensures forall i | 0 <= i < |out| && !(minY <= bounds.minY + i < maxY) :: out[i] == dst[i]
    ensures forall i, j | 0 <= i < |out| && minY <= bounds.minY + i < maxY && 0 <= j < |out[i]| ::
              out[i][j] == ConvPixel(src, bounds, k, bounds.minX + j, bounds.minY + i, minY, maxY)
  {
    seq(|dst|, i requires 0 <= i < |dst| =>
      if minY <= bounds.minY + i < maxY then
        seq(|dst[i]|, j requires 0 <= j < |dst[i]| => ConvPixel(src, bounds, k, bounds.minX + j, bounds.minY + i, minY, maxY))
      else dst[i])
  }

  // ---------------------------------------------------------------- one pass

  /** The effects a scheduler can ask for. */
  datatype Effect = Grayscale | Convolution(kernel: Kernel)

  /** One pass of an effect over rows [minY, maxY): the input is read, only the output changes. */
  function ApplyEffect(s: ImageState, e: Effect, minY: int, maxY: int): (t: ImageState)
    requires s.Valid()
    ensures t.Valid() && t.bounds == s.bounds && t.input == s.input
  {
    match e
    case Grayscale => s.(output := GrayRows(s.bounds, s.input, s.output, minY, maxY))
    case Convolution(k) => s.(output := ConvRows(s.bounds, s.input, s.output, k, minY, maxY))
  }

  /** Rows outside the band are left as the output held them; the input is never written. */
  lemma {:induction false} OutsideBandUnchanged(s: ImageState, e: Effect, minY: int, maxY: int, i: int)
    requires s.Valid() && 0 <= i < |s.output| && !(minY <= s.bounds.minY + i < maxY)
    ensures ApplyEffect(s, e, minY, maxY).output[i] == s.output[i]
    ensures ApplyEffect(s, e, minY, maxY).input == s.input
  {
  }

  /** An empty band (minY >= maxY) changes nothing: the row loop never runs. */
  lemma EmptyBandChangesNothing(s: ImageState, e: Effect, minY: int, maxY: int)
    requires s.Valid() && minY >= maxY
    ensures ApplyEffect(s, e, minY, maxY) == s
  {
    var t := ApplyEffect(s, e, minY, maxY);
    SameRaster(t.output, s.output, s.bounds);
  }

  /** The rows a pass writes depend on the input alone, not on what the output held before. */
  lemma BandRowsIgnoreOutput(s: ImageState, u: ImageState, e: Effect, minY: int, maxY: int, i: int)
    requires s.Valid() && u.Valid() && s.bounds == u.bounds && s.input == u.input
    requires 0 <= i < |s.output| && minY <= s.bounds.minY + i < maxY
    ensures ApplyEffect(s, e, minY, maxY).output[i] == ApplyEffect(u, e, minY, maxY).output[i]
  {
    var t, v := ApplyEffect(s, e, minY, maxY), ApplyEffect(u, e, minY, maxY);
    assert |t.output[i]| == |v.output[i]|;
    forall j | 0 <= j < |t.output[i]|
      ensures t.output[i][j] == v.output[i][j]
    {
    }
  }

  /**
   * Passes over disjoint bands commute: each writes only its own rows and reads only the
   * input, which is why the slices of one effect may run in any order.
   */
  lemma DisjointPassesCommute(s: ImageState, e1: Effect, a1: int, b1: int, e2: Effect, a2: int, b2: int)
    requires s.Valid() && (b1 <= a2 || b2 <= a1)
    ensures ApplyEffect(ApplyEffect(s, e1, a1, b1), e2, a2, b2)
            == ApplyEffect(ApplyEffect(s, e2, a2, b2), e1, a1, b1)
  {
    var s1, s2 := ApplyEffect(s, e1, a1, b1), ApplyEffect(s, e2, a2, b2);
    var l, r := ApplyEffect(s1, e2, a2, b2), ApplyEffect(s2, e1, a1, b1);
    forall i, j | 0 <= i < |l.output| && 0 <= j < |l.output[i]|
      ensures l.output[i][j] == r.output[i][j]
    {
      if a1 <= s.bounds.minY + i < b1 {
        OutsideBandUnchanged(s1, e2, a2, b2, i);
        BandRowsIgnoreOutput(s2, s, e1, a1, b1, i);
      } else if a2 <= s.bounds.minY + i < b2 {
        OutsideBandUnchanged(s2, e1, a1, b1, i);
        BandRowsIgnoreOutput(s1, s, e2, a2, b2, i);
      } else {
        OutsideBandUnchanged(s1, e2, a2, b2, i);
        OutsideBandUnchanged(s2, e1, a1, b1, i);
        OutsideBandUnchanged(s, e1, a1, b1, i);
        OutsideBandUnchanged(s, e2, a2, b2, i);
      }
    }
    SameRaster(l.output, r.output, s.bounds);
  }

  /**
   * Grayscale over [a, m) and then over [m, b) is grayscale over [a, b): a gray row depends
   * only on the same input row, never on the band.
   */
  lemma GrayBandsCompose(s: ImageState, a: int, m: int, b: int)
    requires s.Valid() && a <= m <= b
    ensures ApplyEffect(ApplyEffect(s, Grayscale, a, m), Grayscale, m, b) == ApplyEffect(s, Grayscale, a, b)
  {
    var l := ApplyEffect(ApplyEffect(s, Grayscale, a, m), Grayscale, m, b);
    var r := ApplyEffect(s, Grayscale, a, b);
    SameRaster(l.output, r.output, s.bounds);
  }

  /** A raster whose every pixel has equal red, green and blue. */
  predicate IsGray(p: Raster) {
    forall i, j | 0 <= i < |p| && 0 <= j < |p[i]| :: p[i][j].r == p[i][j].g == p[i][j].b
  }

  /** Two contributions agree when the neighbour, if it counts, has the same channel value in both. */
  lemma ContributionsAgree(src1: Raster, c1: Chan, src2: Raster, c2: Chan, bounds: Rect, k: Kernel,
                           x: int, y: int, minY: int, maxY: int, o: Offset)
    requires Shaped(src1, bounds) && Shaped(src2, bounds)
    requires Included(bounds, x, y, minY, maxY, o) ==>
               ChannelOf(PixelAt(src1, bounds, x + o.kx, y + o.ky), c1) == ChannelOf(PixelAt(src2, bounds, x + o.kx, y + o.ky), c2)
    ensures Contribution(src1, bounds, k, x, y, minY, maxY, o, c1) == Contribution(src2, bounds, k, x, y, minY, maxY, o, c2)
  {
  }

  /**
   * Two running sums agree when every counted neighbour visited so far has the same channel
   * value in both.
   */
  lemma {:induction false} WindowSumsAgree(src1: Raster, c1: Chan, src2: Raster, c2: Chan, bounds: Rect, k: Kernel,
                                           x: int, y: int, minY: int, maxY: int, n: nat)
    requires Shaped(src1, bounds) && Shaped(src2, bounds) && n <= 9
    requires forall m | 0 <= m < n && Included(bounds, x, y, minY, maxY, OffsetAt(m)) ::
               ChannelOf(PixelAt(src1, bounds, x + OffsetAt(m).kx, y + OffsetAt(m).ky), c1)
               == ChannelOf(PixelAt(src2, bounds, x + OffsetAt(m).kx, y + OffsetAt(m).ky), c2)
    ensures WindowSum(src1, bounds, k, x, y, minY, maxY, n, c1) == WindowSum(src2, bounds, k, x, y, minY, maxY, n, c2)
  {
    if n > 0 {
      WindowSumsAgree(src1, c1, src2, c2, bounds, k, x, y, minY, maxY, n - 1);
      ContributionsAgree(src1, c1, src2, c2, bounds, k, x, y, minY, maxY, OffsetAt(n - 1));
    }
  }

  /** Convolving a gray input gives gray pixels: every channel sees the same neighbour values. */
  lemma GrayStaysGray(src: Raster, bounds: Rect, k: Kernel, x: int, y: int, minY: int, maxY: int)
    requires Shaped(src, bounds) && IsGray(src)
    ensures ConvPixel(src, bounds, k, x, y, minY, maxY).r == ConvPixel(src, bounds, k, x, y, minY, maxY).g
    ensures ConvPixel(src, bounds, k, x, y, minY, maxY).g == ConvPixel(src, bounds, k, x, y, minY, maxY).b
  {
    WindowSumsAgree(src, Red, src, Green, bounds, k, x, y, minY, maxY, 9);
    WindowSumsAgree(src, Green, src, Blue, bounds, k, x, y, minY, maxY, 9);
  }

  /**
   * A convolved pixel of the band depends only on the input rows of the band: rows outside
   * [minY, maxY) are never read, even where the image has them.
   */
  lemma ConvReadsOnlyBand(src1: Raster, src2: Raster, bounds: Rect, k: Kernel, x: int, y: int, minY: int, maxY: int)
    requires Shaped(src1, bounds) && Shaped(src2, bounds) && minY <= y < maxY
    requires forall i | 0 <= i < |src1| && minY <= bounds.minY + i < maxY :: src1[i] == src2[i]
    ensures ConvPixel(src1, bounds, k, x, y, minY, maxY) == ConvPixel(src2, bounds, k, x, y, minY, maxY)
  {
    WindowSumsAgree(src1, Red, src2, Red, bounds, k, x, y, minY, maxY, 9);
    WindowSumsAgree(src1, Green, src2, Green, bounds, k, x, y, minY, maxY, 9);
    WindowSumsAgree(src1, Blue, src2, Blue, bounds, k, x, y, minY, maxY, 9);
  }

  // ---------------------------------------------------------------- the image buffers

  /** The contents of a buffer, row by row. */
  function Contents(a: array2<Pixel>): (p: Raster)
    reads a
    ensures |p| == a.Length0
    ensures forall i | 0 <= i < |p| :: |p[i]| == a.Length1
    ensures forall i, j | 0 <= i < a.Length0 && 0 <= j < a.Length1 :: p[i][j] == a[i, j]
  {
    seq(a.Length0, i requires 0 <= i < a.Length0 reads a =>
      seq(a.Length1, j requires 0 <= j < a.Length1 reads a => a[i, j]))
  }

  /** An image: fixed bounds and two buffers of that size, the input and the output. */
  class Image {
    const bounds: Rect
    var inBuf: array2<Pixel>
    var outBuf: array2<Pixel>

    ghost predicate Valid()
      reads this
    {
      && bounds.WellFormed()
      && inBuf != outBuf
      && inBuf.Length0 == bounds.Height() && inBuf.Length1 == bounds.Width()
      && outBuf.Length0 == bounds.Height() && outBuf.Length1 == bounds.Width()
    }

    function Input(): (p: Raster)
      requires Valid()
      reads this, inBuf
      ensures Shaped(p, bounds)
    {
      Contents(inBuf)
    }

    function Output(): (p: Raster)
      requires Valid()
      reads this, outBuf
      ensures Shaped(p, bounds)
    {
      Contents(outBuf)
    }

    function State(): (s: ImageState)
      requires Valid()
      reads this, inBuf, outBuf
      ensures s.Valid() && s.bounds == bounds
    {
      ImageState(bounds, Input(), Output())
    }

    /** A fresh image holding the buffers of `s`. */
    constructor Load(s: Picture)
      ensures Valid() && State() == s
      ensures fresh(inBuf) && fresh(outBuf)
    {
      var h, w := s.bounds.Height(), s.bounds.Width();
      bounds := s.bounds;
      inBuf := new Pixel[h, w]((i: nat, j: nat) requires i < h && j < w => s.input[i][j]);
      outBuf := new Pixel[h, w]((i: nat, j: nat) requires i < h && j < w => s.output[i][j]);
      new;
      SameRaster(Input(), s.input, bounds);
      SameRaster(Output(), s.output, bounds);
    }

    /** `in.At(x, y)`: the input pixel at (x, y), transparent black outside the bounds. */
    function At(x: int, y: int): (p: Pixel)
      requires Valid()
      reads this, inBuf
      ensures p == PixelAt(Input(), bounds, x, y)
    {
      if bounds.Contains(x, y) then inBuf[y - bounds.minY, x - bounds.minX] else Transparent
    }

    /** Exchanges the roles of the two buffers; no pixel changes. */
    method SwapBuffers()
      requires Valid()
      modifies this
      ensures Valid() && inBuf == old(outBuf) && outBuf == old(inBuf)
      ensures State() == old(State()).Swapped()
    {
      inBuf, outBuf := outBuf, inBuf;
    }

    /** One row of `ApplyGrayscale` (effects.go:15-29): every pixel of row y becomes gray. */
    method GrayRow(y: int)
      requires Valid()
      modifies outBuf
      ensures Valid() && Input() == old(Input())
      ensures forall i, j | 0 <= i < outBuf.Length0 && 0 <= j < outBuf.Length1 ::
                outBuf[i, j] == if bounds.minY + i == y then GrayPixel(inBuf[i, j]) else old(outBuf[i, j])
    {
      var x := bounds.minX;
      while x < bounds.maxX
        invariant bounds.minX <= x <= bounds.maxX
        invariant forall i, j | 0 <= i < outBuf.Length0 && 0 <= j < outBuf.Length1 ::
                    outBuf[i, j] == if bounds.minY + i == y && bounds.minX + j < x
                                    then GrayPixel(inBuf[i, j]) else old(outBuf[i, j])
      {
        var p := At(x, y);
        var grey := Clamp((p.r + p.g + p.b) as real / 3.0);
        // Set ignores points outside the bounds
        if bounds.Contains(x, y) {
          outBuf[y - bounds.minY, x - bounds.minX] := Pixel(grey, grey, grey, p.a);
        }
        x := x + 1;
      }
    }

    /** `ApplyGrayscale(minY, maxY)` (effects.go:8-31). */
    method ApplyGrayscale(minY: int, maxY: int)
      requires Valid()
      modifies outBuf
      ensures Valid()
      ensures State() == ApplyEffect(old(State()), Grayscale, minY, maxY)
    {
      var y := minY;
      while y < maxY
        invariant y == minY || minY < y <= maxY
        invariant forall i, j | 0 <= i < outBuf.Length0 && 0 <= j < outBuf.Length1 ::
                    outBuf[i, j] == if minY <= bounds.minY + i < y then GrayPixel(inBuf[i, j]) else old(outBuf[i, j])
      {
        GrayRow(y);
        y := y + 1;
      }
      SameRaster(Output(), GrayRows(bounds, Input(), old(Output()), minY, maxY), bounds);
    }

    /**
     * One step of the window loops (effects.go:39-49): adds the neighbour at offset (ky, kx)
     * to the running sums when it counts.
     */
    method Visit(kernel: Kernel, x: int, y: int, minY: int, maxY: int, ky: int, kx: int,
                 rSum: real, gSum: real, bSum: real) returns (rNext: real, gNext: real, bNext: real)
      requires Valid() && -1 <= ky <= 1 && -1 <= kx <= 1
      requires rSum == WindowSum(Input(), bounds, kernel, x, y, minY, maxY, 3 * (ky + 1) + (kx + 1), Red)
      requires gSum == WindowSum(Input(), bounds, kernel, x, y, minY, maxY, 3 * (ky + 1) + (kx + 1), Green)
      requires bSum == WindowSum(Input(), bounds, kernel, x, y, minY, maxY, 3 * (ky + 1) + (kx + 1), Blue)
      ensures rNext == WindowSum(Input(), bounds, kernel, x, y, minY, maxY, 3 * (ky + 1) + (kx + 1) + 1, Red)
      ensures gNext == WindowSum(Input(), bounds, kernel, x, y, minY, maxY, 3 * (ky + 1) + (kx + 1) + 1, Green)
      ensures bNext == WindowSum(Input(), bounds, kernel, x, y, minY, maxY, 3 * (ky + 1) + (kx + 1) + 1, Blue)
    {
      ghost var src := Input();
      rNext, gNext, bNext := rSum, gSum, bSum;
      var ix := x + kx;
      var iy := y + ky;
      if ix >= bounds.minX && ix < bounds.maxX && iy >= minY && iy < maxY {
        var p := At(ix, iy);
        var weight := kernel[ky + 1][kx + 1];
        CountedPixelStep(src, bounds, kernel, x, y, minY, maxY, ky, kx, 3 * (ky + 1) + (kx + 1), p, weight);
        rNext := rSum + p.r as real * weight;
        gNext := gSum + p.g as real * weight;
        bNext := bSum + p.b as real * weight;
      } else {
        SkippedPixelStep(src, bounds, kernel, x, y, minY, maxY, ky, kx, 3 * (ky + 1) + (kx + 1));
      }
    }

    /** The pixel `ApplyConvolution` computes for (x, y) (effects.go:35-55). */
    method Convolved(kernel: Kernel, x: int, y: int, minY: int, maxY: int) returns (p: Pixel)
      requires Valid()
      ensures p == ConvPixel(Input(), bounds, kernel, x, y, minY, maxY)
    {
      var rSum, gSum, bSum := 0.0, 0.0, 0.0;
      var ky := -1;
      while ky <= 1
        invariant -1 <= ky <= 2
        invariant rSum == WindowSum(Input(), bounds, kernel, x, y, minY, maxY, 3 * (ky + 1), Red)
        invariant gSum == WindowSum(Input(), bounds, kernel, x, y, minY, maxY, 3 * (ky + 1), Green)
        invariant bSum == WindowSum(Input(), bounds, kernel, x, y, minY, maxY, 3 * (ky + 1), Blue)
      {
        var kx := -1;
        while kx <= 1
          invariant -1 <= kx <= 2
          invariant rSum == WindowSum(Input(), bounds, kernel, x, y, minY, maxY, 3 * (ky + 1) + (kx + 1), Red)
          invariant gSum == WindowSum(Input(), bounds, kernel, x, y, minY, maxY, 3 * (ky + 1) + (kx + 1), Green)
          invariant bSum == WindowSum(Input(), bounds, kernel, x, y, minY, maxY, 3 * (ky + 1) + (kx + 1), Blue)
        {
          rSum, gSum, bSum := Visit(kernel, x, y, minY, maxY, ky, kx, rSum, gSum, bSum);
          kx := kx + 1;
        }
        ky := ky + 1;
      }
      ConvPixelFromSums(Input(), bounds, kernel, x, y, minY, maxY, rSum, gSum, bSum, At(x, y).a);
      p := Pixel(Clamp(rSum), Clamp(gSum), Clamp(bSum), At(x, y).a);
    }

    /** One row of `ApplyConvolution` (effects.go:35-56): every pixel of row y gets its ConvPixel. */
    method ConvolveRow(ghost src: Raster, kernel: Kernel, y: int, minY: int, maxY: int)
      requires Valid() && src == Input()
      modifies outBuf
      ensures Valid() && Input() == src
      ensures forall i, j | 0 <= i < outBuf.Length0 && 0 <= j < outBuf.Length1 ::
                outBuf[i, j] == if bounds.minY + i == y
                                then ConvPixel(src, bounds, kernel, bounds.minX + j, y, minY, maxY)
                                else old(outBuf[i, j])
    {
      var x := bounds.minX;
      while x < bounds.maxX
        invariant bounds.minX <= x <= bounds.maxX
        invariant Input() == src
        invariant forall i, j | 0 <= i < outBuf.Length0 && 0 <= j < outBuf.Length1 ::
                    outBuf[i, j] == if bounds.minY + i == y && bounds.minX + j < x
                                    then ConvPixel(src, bounds, kernel, bounds.minX + j, y, minY, maxY)
                                    else old(outBuf[i, j])
      {
        var p := Convolved(kernel, x, y, minY, maxY);
        // Set ignores points outside the bounds
        if bounds.Contains(x, y) {
          outBuf[y - bounds.minY, x - bounds.minX] := p;
        }
        x := x + 1;
      }
    }

    /** `ApplyConvolution(kernel, minY, maxY)` (effects.go:33-58). */
    method ApplyConvolution(kernel: Kernel, minY: int, maxY: int)
      requires Valid()
      modifies outBuf
      ensures Valid()
      ensures State() == ApplyEffect(old(State()), Convolution(kernel), minY, maxY)
    {
      ghost var src := Input();
      var y := minY;
      while y < maxY
        invariant y == minY || minY < y <= maxY
        invariant Input() == src
        invariant forall i, j | 0 <= i < outBuf.Length0 && 0 <= j < outBuf.Length1 ::
                    outBuf[i, j] == if minY <= bounds.minY + i < y
                                    then ConvPixel(src, bounds, kernel, bounds.minX + j, bounds.minY + i, minY, maxY)
                                    else old(outBuf[i, j])
      {
        ConvolveRow(src, kernel, y, minY, maxY);
        y := y + 1;
      }
      SameRaster(Output(), ConvRows(bounds, src, old(Output()), kernel, minY, maxY), bounds);
    }

    /** Runs one effect over rows [minY, maxY): the `case` arms of the schedulers' switches. */
    method Apply(e: Effect, minY: int, maxY: int)
      requires Valid()
      modifies outBuf
      ensures Valid()
      ensures State() == ApplyEffect(old(State()), e, minY, maxY)
    {
      match e
      case Grayscale => ApplyGrayscale(minY, maxY);
      case Convolution(k) => ApplyConvolution(k, minY, maxY);
    }
  }
}
