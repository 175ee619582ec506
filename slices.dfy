/**
 * The row partition of proj1/scheduler/parslices.go: with numThreads workers, every effect is
 * run as numThreads passes, pass i over rows [SliceMin(i), SliceMax(i)), and the buffers are
 * swapped once all of them are done.
 */
module Slices {
  import opened Wrappers
  import opened Raster
  import opened Kernels
  import opened Effects
  import opened Plans
  import opened Utils

  /**
   * `sliceHeight := (height + numThreads - 1) / numThreads`. The numerator is never negative,
   * so Go's truncating division and Dafny's agree.
   */
  function SliceHeight(height: nat, numThreads: int): nat
    requires numThreads >= 1
  {
    (height + numThreads - 1) / numThreads
  }

  /** The slice height is the ceiling of height / numThreads. */
  lemma SliceHeightIsCeiling(height: nat, numThreads: int)
    requires numThreads >= 1
    ensures SliceHeight(height, numThreads) * numThreads >= height
    ensures (SliceHeight(height, numThreads) - 1) * numThreads < height
  {
    var n := numThreads;
    var q, r := (height + n - 1) / n, (height + n - 1) % n;
    assert height + n - 1 == q * n + r;
    assert (q - 1) * n == q * n - n;
  }

  lemma MulLeft(a: int, b: int, c: nat)
    requires a <= b
    ensures a * c <= b * c
  {
  }

  /** The first row of slice i: `bounds.Min.Y + i*sliceHeight`. */
  function SliceMin(bounds: Rect, numThreads: int, i: int): int
    requires bounds.WellFormed() && numThreads >= 1
  {
    bounds.minY + i * SliceHeight(bounds.Height(), numThreads)
  }

  /** The row after slice i: `min(minY + sliceHeight, bounds.Max.Y)`. */
  function SliceMax(bounds: Rect, numThreads: int, i: int): int
    requires bounds.WellFormed() && numThreads >= 1
  {
    Min(SliceMin(bounds, numThreads, i) + SliceHeight(bounds.Height(), numThreads), bounds.maxY)
  }

  /** Every row of every slice lies inside the image's rows. */
  lemma SliceInsideBounds(bounds: Rect, numThreads: int, i: nat)
    requires bounds.WellFormed() && numThreads >= 1
    ensures bounds.minY <= SliceMin(bounds, numThreads, i)
    ensures SliceMax(bounds, numThreads, i) <= bounds.maxY
  {
    MulLeft(0, i, SliceHeight(bounds.Height(), numThreads));
  }

  /** Slices are pairwise disjoint: a later slice starts no earlier than an earlier one ends. */
  lemma SlicesDisjoint(bounds: Rect, numThreads: int, i: int, j: int)
    requires bounds.WellFormed() && numThreads >= 1 && i < j
    ensures SliceMax(bounds, numThreads, i) <= SliceMin(bounds, numThreads, j)
  {
    var sh := SliceHeight(bounds.Height(), numThreads);
    MulLeft(i + 1, j, sh);
  }

  /** Every row of the image lies in exactly one of the numThreads slices. */
  lemma RowInOneSlice(bounds: Rect, numThreads: int, y: int) returns (i: int)
    requires bounds.WellFormed() && numThreads >= 1 && bounds.minY <= y < bounds.maxY
    ensures 0 <= i < numThreads
    ensures SliceMin(bounds, numThreads, i) <= y < SliceMax(bounds, numThreads, i)
    ensures forall j | 0 <= j < numThreads && SliceMin(bounds, numThreads, j) <= y < SliceMax(bounds, numThreads, j) :: j == i
  {
    var h, sh := bounds.Height(), SliceHeight(bounds.Height(), numThreads);
    SliceHeightIsCeiling(h, numThreads);
    if sh == 0 {
      assert false;
    }
    i := Quotient(y - bounds.minY, sh);
    if i >= numThreads {
      MulLeft(numThreads, i, sh);
      assert false;
    }
    assert SliceMin(bounds, numThreads, i) <= y < SliceMax(bounds, numThreads, i);
    forall j | 0 <= j < numThreads && SliceMin(bounds, numThreads, j) <= y < SliceMax(bounds, numThreads, j)
      ensures j == i
    {
      if j < i {
        SlicesDisjoint(bounds, numThreads, j, i);
      } else if i < j {
        SlicesDisjoint(bounds, numThreads, i, j);
      }
    }
  }

  /** The band of height sh that holds d: the quotient of d by sh. */
  lemma Quotient(d: nat, sh: int) returns (i: nat)
    requires sh >= 1
    ensures i * sh <= d < i * sh + sh
  {
    i := d / sh;
    assert d == i * sh + d % sh;
  }

  /** With more threads than rows, every slice from index `height` on is empty. */
  lemma TrailingSlicesEmpty(bounds: Rect, numThreads: int, i: int)
    requires bounds.WellFormed() && numThreads > bounds.Height() && bounds.Height() <= i
    ensures SliceMin(bounds, numThreads, i) >= SliceMax(bounds, numThreads, i)
  {
    var h, n := bounds.Height(), numThreads;
    var sh := SliceHeight(h, n);
    if h > 0 {
      var q, r := (h + n - 1) / n, (h + n - 1) % n;
      assert h + n - 1 == q * n + r;
      if q >= 2 {
        MulLeft(2, q, n);
        assert false;
      }
      assert sh == 1;
    }
  }

  /** The passes of one effect over slices 0 .. k-1, in the order the loop starts them. */
  function SliceRuns(e: Effect, bounds: Rect, numThreads: int, k: nat): seq<Call>
    requires bounds.WellFormed() && numThreads >= 1
  {
    if k == 0 then []
    else SliceRuns(e, bounds, numThreads, k - 1)
         + [Run(e, SliceMin(bounds, numThreads, k - 1), SliceMax(bounds, numThreads, k - 1))]
  }

  /**
   * The calls of `processImage` for one code: a pass per slice when the code is known (an
   * unknown code starts workers that write nothing), then, after all of them, one swap.
   */
  function SliceCalls(code: string, bounds: Rect, numThreads: int): seq<Call>
    requires bounds.WellFormed() && numThreads >= 1
  {
    (match EffectOf(code)
     case Some(e) => SliceRuns(e, bounds, numThreads, numThreads)
     case None => []) + [Swap]
  }

  /** The calls of `processImage` for all the codes of a task. */
  function SlicePlan(bounds: Rect, codes: seq<string>, numThreads: int): seq<Call>
    requires bounds.WellFormed() && numThreads >= 1
  {
    if codes == [] then []
    else SlicePlan(bounds, codes[..|codes| - 1], numThreads) + SliceCalls(codes[|codes| - 1], bounds, numThreads)
  }

  lemma {:induction false} SliceRunsAre(e: Effect, bounds: Rect, numThreads: int, k: nat)
    requires bounds.WellFormed() && numThreads >= 1
    ensures |SliceRuns(e, bounds, numThreads, k)| == k
    ensures forall i | 0 <= i < k ::
              SliceRuns(e, bounds, numThreads, k)[i] == Run(e, SliceMin(bounds, numThreads, i), SliceMax(bounds, numThreads, i))
  {
    if k > 0 {
      SliceRunsAre(e, bounds, numThreads, k - 1);
    }
  }

  /**
   * The shape of one code's calls: for a known code, the pass of slice i at position i for
   * every i < numThreads, and for an unknown code none; then exactly one swap, last.
   */
  lemma SliceCallsShape(code: string, bounds: Rect, numThreads: int)
    requires bounds.WellFormed() && numThreads >= 1
    ensures var calls := SliceCalls(code, bounds, numThreads);
            && |calls| == (if EffectOf(code).Some? then numThreads else 0) + 1
            && calls[|calls| - 1] == Swap
            && forall i | 0 <= i < |calls| - 1 ::
                 calls[i] == Run(EffectOf(code).value, SliceMin(bounds, numThreads, i), SliceMax(bounds, numThreads, i))
  {
    if EffectOf(code).Some? {
      SliceRunsAre(EffectOf(code).value, bounds, numThreads, numThreads);
    }
  }

  /** k codes make k swaps, whatever the thread count. */
  lemma {:induction false} SlicePlanSwaps(bounds: Rect, codes: seq<string>, numThreads: int)
    requires bounds.WellFormed() && numThreads >= 1
    ensures Swaps(SlicePlan(bounds, codes, numThreads)) == |codes|
  {
    if codes != [] {
      var code := codes[|codes| - 1];
      var runs := match EffectOf(code) case Some(e) => SliceRuns(e, bounds, numThreads, numThreads) case None => [];
      SlicePlanSwaps(bounds, codes[..|codes| - 1], numThreads);
      SwapsAppend(SlicePlan(bounds, codes[..|codes| - 1], numThreads), SliceCalls(code, bounds, numThreads));
      SwapsAppend(runs, [Swap]);
      if EffectOf(code).Some? {
        SliceRunsAre(EffectOf(code).value, bounds, numThreads, numThreads);
      }
      RunsHaveNoSwaps(runs);
      assert [Swap][..0] == [];
    }
  }

  lemma {:induction false} RunsHaveNoSwaps(calls: seq<Call>)
    requires forall c | c in calls :: c.Run?
    ensures Swaps(calls) == 0
  {
    if calls != [] {
      assert calls[|calls| - 1] in calls;
      assert forall c | c in calls[..|calls| - 1] :: c in calls;
      RunsHaveNoSwaps(calls[..|calls| - 1]);
    }
  }

  /** Passes over two different slices commute, so the workers may finish in any order. */
  lemma SlicePassesCommute(s: ImageState, e1: Effect, e2: Effect, numThreads: int, i: int, j: int)
    requires s.Valid() && numThreads >= 1 && i != j
    ensures var b := s.bounds;
            ApplyEffect(ApplyEffect(s, e1, SliceMin(b, numThreads, i), SliceMax(b, numThreads, i)),
                        e2, SliceMin(b, numThreads, j), SliceMax(b, numThreads, j))
            == ApplyEffect(ApplyEffect(s, e2, SliceMin(b, numThreads, j), SliceMax(b, numThreads, j)),
                           e1, SliceMin(b, numThreads, i), SliceMax(b, numThreads, i))
  {
    if i < j {
      SlicesDisjoint(s.bounds, numThreads, i, j);
    } else {
      SlicesDisjoint(s.bounds, numThreads, j, i);
    }
    DisjointPassesCommute(s, e1, SliceMin(s.bounds, numThreads, i), SliceMax(s.bounds, numThreads, i),
                          e2, SliceMin(s.bounds, numThreads, j), SliceMax(s.bounds, numThreads, j));
  }

  /** With one thread the single slice is the whole image, and the calls are the sequential ones. */
  lemma {:induction false} OneSliceIsFullPlan(bounds: Rect, codes: seq<string>)
    requires bounds.WellFormed()
    ensures SlicePlan(bounds, codes, 1) == FullPlan(bounds, codes)
  {
    if codes != [] {
      OneSliceIsFullPlan(bounds, codes[..|codes| - 1]);
      assert SliceMin(bounds, 1, 0) == bounds.minY;
      assert SliceMax(bounds, 1, 0) == bounds.maxY;
      var code := codes[|codes| - 1];
      if EffectOf(code).Some? {
        assert SliceRuns(EffectOf(code).value, bounds, 1, 1)
               == [Run(EffectOf(code).value, bounds.minY, bounds.maxY)];
      }
    }
  }

  /** Grayscale over the first k slices is grayscale over the rows those slices cover. */
  lemma {:induction false} GraySlicesCover(s: ImageState, numThreads: int, k: nat)
    requires s.Valid() && numThreads >= 1
    ensures var b := s.bounds;
            Exec(s, SliceRuns(Grayscale, b, numThreads, k))
            == ApplyEffect(s, Grayscale, b.minY, Min(b.minY + k * SliceHeight(b.Height(), numThreads), b.maxY))
  {
    var b := s.bounds;
    var sh := SliceHeight(b.Height(), numThreads);
    if k == 0 {
      EmptyBandChangesNothing(s, Grayscale, b.minY, b.minY);
    } else {
      GraySlicesCover(s, numThreads, k - 1);
      var lo, hi := SliceMin(b, numThreads, k - 1), SliceMax(b, numThreads, k - 1);
      var runs := SliceRuns(Grayscale, b, numThreads, k);
      assert runs[..|runs| - 1] == SliceRuns(Grayscale, b, numThreads, k - 1);
      var before := ApplyEffect(s, Grayscale, b.minY, Min(b.minY + (k - 1) * sh, b.maxY));
      assert Exec(s, runs) == ApplyEffect(before, Grayscale, lo, hi);
      assert lo == b.minY + (k - 1) * sh;
      assert b.minY + k * sh == lo + sh;
      MulLeft(0, k - 1, sh);
      if lo <= b.maxY {
        GrayBandsCompose(s, b.minY, lo, hi);
      } else {
        EmptyBandChangesNothing(before, Grayscale, lo, hi);
      }
    }
  }

  /** A grayscale code run slice by slice gives the same buffers as one full-range pass. */
  lemma GraySlicesMatchFull(s: ImageState, numThreads: int)
    requires s.Valid() && numThreads >= 1
    ensures Exec(s, SliceCalls("G", s.bounds, numThreads)) == Exec(s, CodeCalls("G", s.bounds.minY, s.bounds.maxY))
  {
    var b := s.bounds;
    var runs := SliceRuns(Grayscale, b, numThreads, numThreads);
    GraySlicesCover(s, numThreads, numThreads);
    SliceHeightIsCeiling(b.Height(), numThreads);
    assert SliceHeight(b.Height(), numThreads) * numThreads == numThreads * SliceHeight(b.Height(), numThreads);
    ExecAppend(s, runs, [Swap]);
    CodeEffect(s, "G", b.minY, b.maxY);
    assert [Swap][..0] == [];
  }

  /** A code whose pass, if any, is grayscale. */
  predicate GrayOrUnknown(code: string) {
    EffectOf(code).None? || EffectOf(code) == Some(Grayscale)
  }

  /**
   * For tasks whose codes are all grayscale or unknown, the slice scheduler's buffers equal
   * the sequential scheduler's for every thread count.
   */
  lemma {:induction false} GrayPlansAgree(s: ImageState, codes: seq<string>, numThreads: int)
    requires s.Valid() && numThreads >= 1
    requires forall i | 0 <= i < |codes| :: GrayOrUnknown(codes[i])
    ensures Exec(s, SlicePlan(s.bounds, codes, numThreads)) == Exec(s, FullPlan(s.bounds, codes))
  {
    if codes != [] {
      var init, code := codes[..|codes| - 1], codes[|codes| - 1];
      GrayPlansAgree(s, init, numThreads);
      var mid := Exec(s, FullPlan(s.bounds, init));
      ExecAppend(s, SlicePlan(s.bounds, init, numThreads), SliceCalls(code, s.bounds, numThreads));
      ExecAppend(s, FullPlan(s.bounds, init), CodeCalls(code, s.bounds.minY, s.bounds.maxY));
      if EffectOf(code).Some? {
        assert code == "G";
        GraySlicesMatchFull(mid, numThreads);
      } else {
        assert SliceCalls(code, s.bounds, numThreads) == [Swap] == CodeCalls(code, s.bounds.minY, s.bounds.maxY);
      }
    }
  }

  /** Two slices of a two-row image are one row each. */
  lemma TwoRowsTwoSlices(b: Rect)
    requires b.WellFormed() && b.Height() == 2
    ensures SliceMin(b, 2, 0) == b.minY && SliceMax(b, 2, 0) == b.minY + 1
    ensures SliceMin(b, 2, 1) == b.minY + 1 && SliceMax(b, 2, 1) == b.maxY
  {
    assert SliceHeight(b.Height(), 2) == 1;
  }

  /** A one-column image of two rows whose red channels are 1. */
  predicate TwoRedRows(b: Rect, src: Raster) {
    && b.WellFormed() && b.Width() == 1 && b.Height() == 2
    && Shaped(src, b) && src[0][0].r == 1 && src[1][0].r == 1
  }

  /** Edge detection at the top pixel, over the band of the top row alone: only the pixel counts. */
  lemma TopRowSum(src: Raster, b: Rect)
    requires TwoRedRows(b, src)
    ensures ChannelSum(src, b, EdgeDetectionKernel, b.minX, b.minY, b.minY, b.minY + 1, Red) == 8.0
  {
    var k := EdgeDetectionKernel;
    SkippedStep(src, b, k, b.minX, b.minY, b.minY, b.minY + 1, -1, -1, 0, Red);
    SkippedStep(src, b, k, b.minX, b.minY, b.minY, b.minY + 1, -1, 0, 1, Red);
    SkippedStep(src, b, k, b.minX, b.minY, b.minY, b.minY + 1, -1, 1, 2, Red);
    SkippedStep(src, b, k, b.minX, b.minY, b.minY, b.minY + 1, 0, -1, 3, Red);
    CountedStep(src, b, k, b.minX, b.minY, b.minY, b.minY + 1, 0, 0, 4, 1, k[1][1], Red);
    SkippedStep(src, b, k, b.minX, b.minY, b.minY, b.minY + 1, 0, 1, 5, Red);
    SkippedStep(src, b, k, b.minX, b.minY, b.minY, b.minY + 1, 1, -1, 6, Red);
    SkippedStep(src, b, k, b.minX, b.minY, b.minY, b.minY + 1, 1, 0, 7, Red);
    SkippedStep(src, b, k, b.minX, b.minY, b.minY, b.minY + 1, 1, 1, 8, Red);
  }

  /** The same pixel over the band of both rows: the pixel below counts too. */
  lemma BothRowsSum(src: Raster, b: Rect)
    requires TwoRedRows(b, src)
    ensures ChannelSum(src, b, EdgeDetectionKernel, b.minX, b.minY, b.minY, b.maxY, Red) == 7.0
  {
    var k := EdgeDetectionKernel;
    SkippedStep(src, b, k, b.minX, b.minY, b.minY, b.maxY, -1, -1, 0, Red);
    SkippedStep(src, b, k, b.minX, b.minY, b.minY, b.maxY, -1, 0, 1, Red);
    SkippedStep(src, b, k, b.minX, b.minY, b.minY, b.maxY, -1, 1, 2, Red);
    SkippedStep(src, b, k, b.minX, b.minY, b.minY, b.maxY, 0, -1, 3, Red);
    CountedStep(src, b, k, b.minX, b.minY, b.minY, b.maxY, 0, 0, 4, 1, k[1][1], Red);
    SkippedStep(src, b, k, b.minX, b.minY, b.minY, b.maxY, 0, 1, 5, Red);
    SkippedStep(src, b, k, b.minX, b.minY, b.minY, b.maxY, 1, -1, 6, Red);
    CountedStep(src, b, k, b.minX, b.minY, b.minY, b.maxY, 1, 0, 7, 1, k[2][1], Red);
    SkippedStep(src, b, k, b.minX, b.minY, b.minY, b.maxY, 1, 1, 8, Red);
  }

  /**
   * Convolution does not commute with slicing: a convolved pixel next to a seam only sees the
   * neighbours inside its own slice. On a one-column image of two rows whose red channels are
   * 1, edge detection gives red 7 at the top pixel when run over the whole image (8 * 1 - 1,
   * the pixel below counts) and 8 when run in two slices of one row each (the pixel below is
   * in the other slice).
   */
  lemma ConvolutionSlicesDiffer(s: ImageState)
    requires s.Valid() && TwoRedRows(s.bounds, s.input)
    ensures Exec(s, SlicePlan(s.bounds, ["E"], 2)).input[0][0].r == 8
    ensures Exec(s, FullPlan(s.bounds, ["E"])).input[0][0].r == 7
  {
    var b, e := s.bounds, Convolution(EdgeDetectionKernel);
    TwoRowsTwoSlices(b);
    var sliced := SliceRuns(e, b, 2, 2);
    assert SliceRuns(e, b, 2, 1) == [Run(e, b.minY, b.minY + 1)];
    assert sliced == [Run(e, b.minY, b.minY + 1), Run(e, b.minY + 1, b.maxY)];
    assert SlicePlan(b, ["E"], 2) == sliced + [Swap] by {
      assert ["E"][..0] == [];
    }
    assert FullPlan(b, ["E"]) == [Run(e, b.minY, b.maxY), Swap] by {
      assert ["E"][..0] == [];
    }
    TopRowSum(s.input, b);
    BothRowsSum(s.input, b);
    var s1 := ApplyEffect(s, e, b.minY, b.minY + 1);
    OutsideBandUnchanged(s1, e, b.minY + 1, b.maxY, 0);
    ExecSnoc(s, [Run(e, b.minY, b.minY + 1)], Run(e, b.minY + 1, b.maxY));
    ExecSnoc(s, sliced, Swap);
    ExecSnoc(s, [Run(e, b.minY, b.maxY)], Swap);
  }
}
