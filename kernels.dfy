/**
 * The 3x3 convolution kernels of proj1/png/kernels.go, over the reals. The Go tables are
 * float64; the blur weight 1/9 is exact here, which floating point is not.
 */
module Kernels {

  /** A 3x3 coefficient matrix, indexed [ky + 1][kx + 1]. */
  type Kernel = k: seq<seq<real>> | |k| == 3 && forall i | 0 <= i < 3 :: |k[i]| == 3
    witness [[0.0, 0.0, 0.0], [0.0, 0.0, 0.0], [0.0, 0.0, 0.0]]

  const SharpenKernel: Kernel := [
    [ 0.0, -1.0,  0.0],
    [-1.0,  5.0, -1.0],
    [ 0.0, -1.0,  0.0]]

  const EdgeDetectionKernel: Kernel := [
    [-1.0, -1.0, -1.0],
    [-1.0,  8.0, -1.0],
    [-1.0, -1.0, -1.0]]

  const BlurKernel: Kernel := [
    [1.0 / 9.0, 1.0 / 9.0, 1.0 / 9.0],
    [1.0 / 9.0, 1.0 / 9.0, 1.0 / 9.0],
    [1.0 / 9.0, 1.0 / 9.0, 1.0 / 9.0]]
}
