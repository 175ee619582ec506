# Parallel image processing: a Dafny model

A Dafny model of the image-filtering core of Parallel-Image-Processing (Go). The
program runs a batch of jobs, where each job is a PNG image together with an ordered
list of effect codes. The effects are grayscale and three 3x3 convolutions (sharpen,
edge detection, blur). The batch runs under one of three schedulers:

- **sequential**: for every `+`-separated data directory and every task of the
  effects file, load the image, run each effect over the whole image, swap the
  buffers after every code, and save.
- **parallel slices**: the same loop, but each effect runs as `numThreads` passes.
  Each pass covers a band of `ceil(height / numThreads)` rows. All passes finish
  before the buffer swap.
- **parallel files**: every (directory, task) pair becomes a copy in a shared queue.
  `min(ThreadCount, len(queue))` workers pop from the front of the queue under a lock
  and process each popped task sequentially. A worker stops when a pop finds the
  queue empty.

The model is split into modules, one per part of the program:

| module | file | what it holds |
|---|---|---|
| `Raster` | raster.dfy | pixels, rectangles, pixel buffers as values, the clamp |
| `Kernels` | kernels.dfy | the three convolution kernels |
| `Effects` | effects.dfy | the effect engine: value-level specification, and the class `Image` with two `array2` buffers whose methods run the source's loops |
| `Tasks` | tasks.dfy | the `ImageTask` class (data directory assignable) and its value `TaskRecord` |
| `Utils` | utils.dfy | `min` and the effects-file parser |
| `Plans` | plans.dfy | code dispatch, and an engine run as a list of calls (`Run` over a band, `Swap`) |
| `Slices` | slices.dfy | the row partition of the slice scheduler |
| `Jobs` | jobs.dfy | paths, directory splitting, the dir-major job list, and what a run saves |
| `Sequential` | sequential.dfy | `RunSequential` |
| `ParSlices` | parslices.dfy | `RunParallelSlices` and `processImage` |
| `ParFiles` | parfiles.dfy | `RunParallelFiles`, the queue, the worker pool and `processTask` |

Every scheduler method is proved equal to the same function,
`Jobs.SchedulerRun(dataDirs, file, decode, fs, plan)`: the saves, in order, of the
dir-major jobs. Two things vary between schedulers:

- `plan` is `Full` for the sequential scheduler and for `processTask`, and
  `Sliced(n)` for the slice scheduler.
- The file-parallel scheduler returns nothing with zero workers.

The lemmas in `Plans`, `Slices`, `Effects` and `Jobs` state what those runs compute.

The external world becomes parameters:

- The file system is a map from a path to the image `png.Load` would return. A path
  not in the map is a failed load.
- `img.Save` is recorded as `Saved(path, buffers)` in the list a run returns.
- The effects file is a `Catalog`: either unopenable, or the scanned lines plus an
  optional scanner error.
- `json.Unmarshal` is an arbitrary decoder function passed in by the caller.

The worker pool of the file-parallel scheduler is modelled as a loop. On each turn,
any live worker, chosen nondeterministically, takes one atomic pop step. The proof
follows a ghost schedule through `ParFiles.Drain`, so the results hold for every
interleaving of pops.

The slice scheduler is meant to reproduce the sequential scheduler's output for every
thread count: each worker reads only the frozen input and writes only its own rows.
The neighbour rule at proj1/png/effects.go:42 breaks this for convolution: it checks a
neighbour's row against the band being processed, not against the image. A pixel next
to a slice seam therefore loses its neighbours in the other slice.
`Slices.ConvolutionSlicesDiffer` shows this on a one-column image of two rows, with edge
detection and two threads. What is proved instead:

- the equality for tasks whose codes are all grayscale (`Slices.GrayPlansAgree`);
- the equality for one thread (`Jobs.OneThreadSavesAsSequential`).

All three schedulers swap the buffers after an unknown code as well
(proj1/scheduler/sequential.go:40-44, proj1/scheduler/parfiles.go:87-91,
proj1/scheduler/parslices.go:69). That swap undoes the previous effect's swap, so the
next effect reads the buffer from before the previous effect
(`Plans.UnknownCodeRestoresInput`).

## Model

| member | source | states |
|---|---|---|
| Raster.PixelAt | proj1/png/effects.go:43 | reading the input at a point outside the bounds gives transparent black |
| Raster.Clamp | proj1/png/effects.go:24 | below 0 gives 0; above 65535 gives 65535; in range, the integer part (the result is within 1 below the value) |
| Raster.ClampIdempotent | proj1/png/effects.go:52-54 | clamping a clamped value changes nothing |
| Effects.GrayPixelIdempotent | proj1/png/effects.go:24-28 | graying a gray pixel gives the same pixel |
| Effects.GrayRows | proj1/png/effects.go:14-30 | in rows inside [minY, maxY), every pixel has R = G = B = clamp of the mean of the input's r, g, b, and the input's alpha; rows outside keep what the output held |
| Effects.VisitedIsOffsets | proj1/png/effects.go:38-39 | the ky/kx loops visit each of the nine window offsets once, row-major |
| Effects.OffsetsInLoopOrder | proj1/png/effects.go:38-39 | the counters (ky, kx) reach offset (ky, kx) after 3(ky+1)+(kx+1) visits |
| Effects.Contributors | proj1/png/effects.go:42 | an offset is kept exactly when its neighbour's column is inside the image and its row inside the band [minY, maxY) |
| Effects.CountedStep | proj1/png/effects.go:42-47 | visiting a counted neighbour adds its channel value times kernel[ky+1][kx+1] to that channel's sum |
| Effects.SkippedStep | proj1/png/effects.go:42 | visiting a neighbour that does not count leaves the sum unchanged (it is omitted, not zero-padded) |
| Effects.CountedPixelStep | proj1/png/effects.go:43-47 | a counted neighbour adds r, g and b, each times the same weight, to the three sums |
| Effects.SkippedPixelStep | proj1/png/effects.go:42 | a neighbour that does not count changes none of the three sums |
| Effects.WindowSumCountsIncluded | proj1/png/effects.go:38-48 | the running sum is the weighted sum over exactly the counted neighbours visited so far, in visiting order |
| Effects.ConvPixelFromSums | proj1/png/effects.go:52-55 | the written pixel is the three clamped channel sums plus the input alpha at (x, y) |
| Effects.ConvRows | proj1/png/effects.go:35-57 | rows inside [minY, maxY) hold the convolved pixel of each position; the other rows keep what the output held |
| Effects.ApplyEffect | proj1/png/effects.go:8-58 | a pass keeps the bounds and never changes the input buffer |
| Effects.OutsideBandUnchanged | proj1/png/effects.go:14 | output rows outside [minY, maxY) and the input are left as they were |
| Effects.EmptyBandChangesNothing | proj1/png/effects.go:14 | when minY >= maxY a pass changes nothing (the loop at effects.go:35 likewise) |
| Effects.BandRowsIgnoreOutput | proj1/png/effects.go:19 | the rows a pass writes depend on the input and the bounds only, not on the previous output |
| Effects.DisjointPassesCommute | proj1/scheduler/parslices.go:51-63 | passes over disjoint bands give the same buffers in either order |
| Effects.GrayBandsCompose | proj1/png/effects.go:14-28 | grayscale over [a, m) then over [m, b) equals grayscale over [a, b) |
| Effects.WindowSumsAgree | proj1/png/effects.go:38-48 | two running sums are equal when every counted neighbour has the same channel value in both |
| Effects.GrayStaysGray | proj1/png/effects.go:43-54 | convolving an input with r = g = b everywhere gives output pixels with r = g = b |
| Effects.ConvReadsOnlyBand | proj1/png/effects.go:42 | a convolved pixel of the band depends only on the input rows inside the band, even where the image has more rows |
| Effects.Image.Load | proj1/scheduler/sequential.go:23 | a loaded image holds exactly the given buffers, in fresh arrays |
| Effects.Image.At | proj1/png/effects.go:19 | the input pixel at (x, y) of the buffer contents, transparent black outside the bounds |
| Effects.Image.SwapBuffers | proj1/scheduler/sequential.go:43-44 | input and output exchange roles; no pixel changes |
| Effects.Image.GrayRow | proj1/png/effects.go:15-29 | every pixel of row y becomes the gray of its input pixel; no other output pixel changes; the input is unchanged |
| Effects.Image.ApplyGrayscale | proj1/png/effects.go:8-31 | the new buffers equal ApplyEffect of the old ones with grayscale: rows [minY, maxY) gray, others kept, input unchanged |
| Effects.Image.Visit | proj1/png/effects.go:39-48 | one offset of the window loops advances the three running sums from step n to step n+1 |
| Effects.Image.Convolved | proj1/png/effects.go:37-55 | the computed pixel is ConvPixel of the input at (x, y) for the band |
| Effects.Image.ConvolveRow | proj1/png/effects.go:36-56 | every pixel of row y gets its convolved pixel; no other output pixel changes; the input is unchanged |
| Effects.Image.ApplyConvolution | proj1/png/effects.go:33-58 | the new buffers equal ApplyEffect of the old ones with the kernel: rows [minY, maxY) convolved, others kept, input unchanged |
| Effects.Image.Apply | proj1/scheduler/sequential.go:31-39 | the pass of either effect, as ApplyEffect |
| Utils.Min | proj1/scheduler/utils.go:36-41 | a when a < b, else b; at most both arguments and equal to one of them |
| Utils.DecodeAllSucceeds | proj1/scheduler/utils.go:20-28 | decoding succeeds exactly when every line decodes, and gives one task per line, in line order |
| Utils.DecodeAllFailsFirst | proj1/scheduler/utils.go:23-26 | a failure reports the error of the first line that fails to decode |
| Utils.DecodeAllPrefixFails | proj1/scheduler/utils.go:24-25 | once a prefix fails, reading more lines keeps that same failure |
| Utils.ParseCatalogOutcome | proj1/scheduler/utils.go:10-33 | parsing succeeds exactly when the file opens, every line decodes and the scanner reports no error; then one task per line in order; an open failure gives its error |
| Utils.ParseEffectsFile | proj1/scheduler/utils.go:10-33 | on any failure, no tasks and that error; otherwise the decoded tasks, one fresh distinct object per line, in order |
| Plans.Exec | proj1/scheduler/sequential.go:30-45 | running calls keeps the bounds and the buffer shapes |
| Plans.ExecAppend | proj1/scheduler/sequential.go:30-45 | running a + b is running a and then b |
| Plans.CodeEffect | proj1/scheduler/sequential.go:31-44 | a known code applies its effect and swaps; an unknown code writes no pixel and only swaps; in both cases the next output is the old input |
| Plans.FullPlanSwaps | proj1/scheduler/sequential.go:30-45 | k codes make exactly k swaps, unknown codes included |
| Plans.FullPlanCoversAllRows | proj1/scheduler/sequential.go:32-39 | every pass of the sequential scheduler covers [Bounds.Min.Y, Bounds.Max.Y) |
| Plans.FullPlanStep | proj1/scheduler/sequential.go:30-45 | the plan of codes + [code] is the plan of codes followed by that code's calls |
| Plans.UnknownCodeRestoresInput | proj1/scheduler/sequential.go:30-45 | an unknown code right after any code leaves the input buffer as it was before that code |
| Slices.SliceHeightIsCeiling | proj1/scheduler/parslices.go:39-40 | the slice height is the ceiling of height / numThreads |
| Slices.SliceInsideBounds | proj1/scheduler/parslices.go:47-49 | every slice lies inside the image's rows |
| Slices.SlicesDisjoint | proj1/scheduler/parslices.go:47-49 | a later slice starts no earlier than an earlier one ends |
| Slices.RowInOneSlice | proj1/scheduler/parslices.go:39-49 | every row of the image lies in exactly one of the numThreads slices |
| Slices.TrailingSlicesEmpty | proj1/scheduler/parslices.go:40-49 | with more threads than rows, every slice from index height onwards is empty |
| Slices.SliceRunsAre | proj1/scheduler/parslices.go:47-64 | the passes of one effect are slice 0 .. k-1, in launch order |
| Slices.SliceCallsShape | proj1/scheduler/parslices.go:43-70 | one code gives the pass of every slice (none for an unknown code) and then exactly one swap, last |
| Slices.SlicePlanSwaps | proj1/scheduler/parslices.go:66-69 | k codes make exactly k swaps for every thread count |
| Slices.SlicePassesCommute | proj1/scheduler/parslices.go:51-63 | any two passes over different slices commute |
| Slices.OneSliceIsFullPlan | proj1/scheduler/parslices.go:40-49 | with one thread, the calls are the sequential scheduler's calls |
| Slices.GraySlicesCover | proj1/scheduler/parslices.go:47-55 | grayscale over the first k slices is grayscale over the rows they cover |
| Slices.GraySlicesMatchFull | proj1/scheduler/parslices.go:43-70 | a grayscale code run in slices gives the same buffers as one full-range pass |
| Slices.GrayPlansAgree | proj1/scheduler/parslices.go:43-70 | for codes that are all grayscale or unknown, slice output equals sequential output for every thread count |
| Slices.TwoRowsTwoSlices | proj1/scheduler/parslices.go:40-49 | two threads split a two-row image into one row each |
| Slices.TopRowSum | proj1/png/effects.go:38-47 | edge detection at the top pixel over the band of the top row sums 8 |
| Slices.BothRowsSum | proj1/png/effects.go:38-47 | the same pixel over the band of both rows sums 7 |
| Slices.ConvolutionSlicesDiffer | proj1/png/effects.go:42 | with two threads, edge detection gives red 8 at the top pixel, where the sequential scheduler gives 7 |
| Jobs.InputPathsDistinct | proj1/scheduler/sequential.go:20 | within one directory, input paths are equal exactly when the input names are |
| Jobs.OutputPathsDistinct | proj1/scheduler/sequential.go:48 | within one directory, output paths are equal exactly when the output names are |
| Jobs.Split | proj1/scheduler/sequential.go:10 | splitting on '+' gives at least one piece, none containing '+' |
| Jobs.JoinSplit | proj1/scheduler/sequential.go:10 | joining the pieces with '+' gives back the original string |
| Jobs.SplitJoin | proj1/scheduler/sequential.go:10 | splitting a join of '+'-free pieces gives back the pieces |
| Jobs.ExpandLength | proj1/scheduler/parfiles.go:22-29 | there are |dirs| * |tasks| jobs |
| Jobs.ExpandAt | proj1/scheduler/parfiles.go:22-29 | job d * |tasks| + t is task t with directory d, other fields unchanged (dir-major) |
| Jobs.SaveOf | proj1/scheduler/sequential.go:22-27 | a job saves at most once, and saves nothing exactly when its input fails to load |
| Jobs.SavesOfAppend | proj1/scheduler/sequential.go:17-18 | the saves of a + b are the saves of a, then those of b |
| Jobs.LoadFailureSkipsOnlyThatJob | proj1/scheduler/sequential.go:23-27 | a job whose load fails is skipped; the jobs before and after it save as if it were absent |
| Jobs.SavesOfAllLoaded | proj1/scheduler/sequential.go:17-55 | when all inputs load, one save per job, in job order, at the job's output path, holding the job's result |
| Jobs.OneThreadSavesAsSequential | proj1/scheduler/parslices.go:40-49 | with one thread, the slice scheduler saves exactly what the sequential scheduler saves |
| Jobs.ParseFailureSavesNothing | proj1/scheduler/sequential.go:11-15 | a parse failure, including any line that fails to decode, means nothing is saved |
| Sequential.ApplyCode | proj1/scheduler/sequential.go:31-44 | one code's pass over [minY, maxY) then a swap, as CodeCalls; the same two buffers |
| Sequential.ApplyEffects | proj1/scheduler/sequential.go:30-45 | the buffers after the effect loop are Exec of the full plan of the codes |
| Sequential.RunTask | proj1/scheduler/sequential.go:19-54 | the save of the task retargeted to the directory, or none when the load fails |
| Sequential.RunSequential | proj1/scheduler/sequential.go:9-57 | the saves are SchedulerRun with the full plan: nothing on a parse failure, else each dir-major job's save in order |
| ParSlices.RunSlices | proj1/scheduler/parslices.go:47-66 | after the workers of one effect, the buffers are Exec of the passes over slices 0 .. numThreads-1 |
| ParSlices.ProcessCode | proj1/scheduler/parslices.go:43-70 | one code: the passes of its slices (none if unknown) then one swap, as SliceCalls |
| ParSlices.ApplySlicedEffects | proj1/scheduler/parslices.go:43-70 | the buffers after the effect loop are Exec of the slice plan of the codes |
| ParSlices.ProcessImage | proj1/scheduler/parslices.go:26-77 | the task's save under the slice plan with ceil(height / numThreads) rows per slice, or none when the load fails |
| ParSlices.ProcessDir | proj1/scheduler/parslices.go:19-22 | every shared task gets the directory as its DataDir; the saves are those of the retargeted tasks in order |
| ParSlices.ProcessDirs | proj1/scheduler/parslices.go:17-23 | the saves are those of the dir-major jobs, and every shared task is left holding the last directory, or unchanged when there is none |
| ParSlices.RunParallelSlices | proj1/scheduler/parslices.go:10-24 | the saves are SchedulerRun with the slice plan |
| ParFiles.TaskQueue.Pop | proj1/scheduler/parfiles.go:44-49 | on a non-empty queue, the front task and the tail remain; on an empty queue, nil and the queue stays empty |
| ParFiles.ExpandQueue | proj1/scheduler/parfiles.go:22-29 | the queue's values are the dir-major expansion; every entry is a fresh copy and the parsed tasks are not modified |
| ParFiles.PopStep | proj1/scheduler/parfiles.go:44-54 | a live worker pops the front, or exits on an empty queue; an exited worker does nothing |
| ParFiles.DrainConserves | proj1/scheduler/parfiles.go:37-60 | whatever the schedule, popped tasks followed by the queue are the original queue: none lost or duplicated |
| ParFiles.DrainStaysSettled | proj1/scheduler/parfiles.go:45-54 | once any worker has exited, the queue stays empty |
| ParFiles.ExactlyOnce | proj1/scheduler/parfiles.go:37-62 | when at least one worker starts and all have exited, every task was popped exactly once, in queue order |
| ParFiles.ProcessTask | proj1/scheduler/parfiles.go:65-102 | the task's save under the full plan, or none when the load fails |
| ParFiles.WorkerIds | proj1/scheduler/parfiles.go:37 | the ids of the workers started are exactly 0 .. n-1 |
| ParFiles.WorkerTurn | proj1/scheduler/parfiles.go:41-57 | one pop-and-process turn: on an empty queue nil and no save, otherwise the front task and its save |
| ParFiles.RunWorkers | proj1/scheduler/parfiles.go:31-62 | with no workers nothing is saved and the queue is untouched; otherwise the queue ends empty and the saves are those of the queued jobs in pop order, whatever the interleaving |
| ParFiles.RunParallelFiles | proj1/scheduler/parfiles.go:11-63 | with ThreadCount 0 nothing is saved; otherwise the saves are SchedulerRun with the full plan |

## Left out

- Goroutines, `sync.WaitGroup` and the test-and-set lock (proj1/locks/taslock.go) are not part of this model. The lock-guarded pop is one atomic step. The slice workers of one effect run one after the other, in slice order, before the swap; `Slices.SlicePassesCommute` shows that any two slice passes commute.
- ParFiles.RunWorkers: lists the saves in pop order. In the program, concurrent workers may finish and save in another order. The model proves which saves happen, not their timing.
- ParSlices.RunParallelSlices: requires ThreadCount >= 1. With 0 or less, the program panics as soon as a loaded image is processed: the division at proj1/scheduler/parslices.go:40 divides by zero, or `wg.Add` at proj1/scheduler/parslices.go:45 gets a negative count for a task with codes. Runs that load nothing end normally, and the model does not cover them.
- ParFiles.RunParallelFiles: requires ThreadCount >= 0. A negative count panics in `wg.Add` at proj1/scheduler/parfiles.go:33 once the queue is built, after a successful parse at proj1/scheduler/parfiles.go:17-19, even when the queue is empty.
- Channel arithmetic is exact over `real`. float64 rounding is not modelled, and the blur kernel's 1/9 is exact here.
- Raster.Clamp: the Go `clamp` helper is not part of this model. The definition used follows the comments at proj1/png/effects.go:21-27: channel values range over [0, 65535], sums may fall outside and are clamped to that range, and the result is stored as `uint16`, so in-range values keep their integer part.
- `png.Load`, `img.Save`, `os.Open`, `bufio.Scanner` and `json.Unmarshal` are not part of this model; they are parameters. Load is a map from path to image; a save is a record in the returned list; the effects file is a `Catalog`; the decoder is a function.
- A failed save is only printed and changes nothing, so it is not distinguished from a successful one.
- `fmt.Println` diagnostics (unknown code, load, save and parse errors) are not modelled.
- The `png.Image` type and `SwapBuffers` are not part of this model. The image is two buffers over shared bounds, and a swap exchanges them.
- The slice/sequential equality for convolution with more than one thread is not proved, because it is false as written (`Slices.ConvolutionSlicesDiffer`).
- proj1/benchmark/graph.py (timing and plotting) is not part of this model.
