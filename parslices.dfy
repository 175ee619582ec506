/**
 * proj1/scheduler/parslices.go: the tasks run one after the other, but each effect of a task
 * is split across numThreads workers, each over its own band of rows, with a buffer swap
 * once all of them are done.
 *
 * The workers of one effect write disjoint bands of the output and read only the input
 * (Slices.SlicePassesCommute), so running them one after the other in slice order, as the
 * methods here do, gives the buffers any interleaving of them gives.
 */
module ParSlices {
  import opened Wrappers
  import opened Raster
  import opened Effects
  import opened Tasks
  import opened Utils
  import opened Plans
  import opened Slices
  import opened Jobs

  /**
   * The workers of one known effect (parslices.go:47-64): the pass over slice i,
   * `[bounds.Min.Y + i*sliceHeight, min(minY + sliceHeight, bounds.Max.Y))`, for every i
   * below numThreads. They write the output buffer only.
   */
  method RunSlices(img: Image, e: Effect, numThreads: int, sliceHeight: int)
    requires img.Valid() && numThreads >= 1
    requires sliceHeight == SliceHeight(img.bounds.Height(), numThreads)
    modifies img.outBuf
    ensures img.Valid()
    ensures img.State() == Exec(old(img.State()), SliceRuns(e, img.bounds, numThreads, numThreads))
  {
    ghost var s0 := img.State();
    var bounds := img.bounds;
    for i := 0 to numThreads
      invariant img.Valid()
      invariant img.State() == Exec(s0, SliceRuns(e, bounds, numThreads, i))
    {
      var minY := bounds.minY + i * sliceHeight;
      var maxY := Min(minY + sliceHeight, bounds.maxY);
      assert minY == SliceMin(bounds, numThreads, i) && maxY == SliceMax(bounds, numThreads, i);
      ExecSnoc(s0, SliceRuns(e, bounds, numThreads, i), Run(e, minY, maxY));
      assert SliceRuns(e, bounds, numThreads, i + 1) == SliceRuns(e, bounds, numThreads, i) + [Run(e, minY, maxY)];
      img.Apply(e, minY, maxY);
    }
  }

  /**
   * One effect of `processImage` (parslices.go:43-70): the workers of the code, if it names
   * an effect (an unknown code starts workers that write nothing), then, once all of them
   * are done, the swap.
   */
  method ProcessCode(img: Image, code: string, numThreads: int, sliceHeight: int)
    requires img.Valid() && numThreads >= 1
    requires sliceHeight == SliceHeight(img.bounds.Height(), numThreads)
    modifies img, img.inBuf, img.outBuf
    ensures img.Valid() && {img.inBuf, img.outBuf} == old({img.inBuf, img.outBuf})
    ensures img.State() == Exec(old(img.State()), SliceCalls(code, img.bounds, numThreads))
  {
    ghost var s0 := img.State();
    match EffectOf(code) {
      case Some(e) => RunSlices(img, e, numThreads, sliceHeight);
      case None =>
    }
    img.SwapBuffers();
    ghost var launched := match EffectOf(code) case Some(e) => SliceRuns(e, img.bounds, numThreads, numThreads) case None => [];
    ExecSnoc(s0, launched, Swap);
  }

  /** The effect loop of `processImage` (parslices.go:43-70): every code, in slices, in order. */
  method ApplySlicedEffects(img: Image, codes: seq<string>, numThreads: int, sliceHeight: int)
    requires img.Valid() && numThreads >= 1
    requires sliceHeight == SliceHeight(img.bounds.Height(), numThreads)
    modifies img, img.inBuf, img.outBuf
    ensures img.Valid()
    ensures img.State() == Exec(old(img.State()), SlicePlan(img.bounds, codes, numThreads))
  {
    ghost var s0 := img.State();
    ghost var buffers := {img.inBuf, img.outBuf};
    for i := 0 to |codes|
      invariant img.Valid() && {img.inBuf, img.outBuf} == buffers
      invariant img.State() == Exec(s0, SlicePlan(s0.bounds, codes[..i], numThreads))
    {
      ProcessCode(img, codes[i], numThreads, sliceHeight);
      assert codes[..i + 1][..i] == codes[..i];
      ExecAppend(s0, SlicePlan(s0.bounds, codes[..i], numThreads), SliceCalls(codes[i], s0.bounds, numThreads));
    }
    assert codes[..|codes|] == codes;
  }

  /**
   * `processImage(task, numThreads)` (parslices.go:26-77): load the task's input, run each
   * code in slices, save under the output path; a failed load skips the task.
   */
  method ProcessImage(task: ImageTask, numThreads: int, fs: map<string, Picture>) returns (save: Option<Saved>)
    requires numThreads >= 1
    ensures save == JobSave(task.Record(), fs, Sliced(numThreads))
  {
    var inputFilePath := InputPath(task.dataDir, task.inPath);
    var outputFilePath := OutputPath(task.dataDir, task.outPath);
    if inputFilePath !in fs {
      return None;
    }
    var img := new Image.Load(fs[inputFilePath]);
    var bounds := img.bounds;
    var height := bounds.maxY - bounds.minY;
    assert height == bounds.Height();
    var sliceHeight := (height + numThreads - 1) / numThreads;
    ApplySlicedEffects(img, task.effects, numThreads, sliceHeight);
    save := Some(Saved(outputFilePath, img.State()));
  }

  /**
   * The task loop of `RunParallelSlices` for one directory (parslices.go:19-22): each task
   * gets the directory as its data directory and is processed, in order.
   */
  method ProcessDir(tasks: seq<ImageTask>, ghost recs: seq<TaskRecord>, dataDir: string, threadCount: int,
                    fs: map<string, Picture>) returns (saves: seq<Saved>)
    requires threadCount >= 1 && |tasks| == |recs|
    requires forall j | 0 <= j < |tasks| ::
               tasks[j].inPath == recs[j].inPath && tasks[j].outPath == recs[j].outPath && tasks[j].effects == recs[j].effects
    modifies set u | u in tasks
    ensures saves == SavesOf(Retarget(recs, dataDir), fs, Sliced(threadCount))
    ensures forall u | u in tasks :: u.dataDir == dataDir
  {
    saves := [];
    for t := 0 to |tasks|
      invariant saves == SavesOf(Retarget(recs, dataDir)[..t], fs, Sliced(threadCount))
      invariant forall j | 0 <= j < t :: tasks[j].dataDir == dataDir
    {
      var task := tasks[t];
      task.dataDir := dataDir;
      var save := ProcessImage(task, threadCount, fs);
      assert Retarget(recs, dataDir)[..t + 1] == Retarget(recs, dataDir)[..t] + [recs[t].(dataDir := dataDir)];
      SavesOfSnoc(Retarget(recs, dataDir)[..t], recs[t].(dataDir := dataDir), fs, Sliced(threadCount));
      if save.Some? {
        saves := saves + [save.value];
      }
    }
    assert Retarget(recs, dataDir)[..|tasks|] == Retarget(recs, dataDir);
  }

  /**
   * The directory loop of `RunParallelSlices` (parslices.go:17-23): every task of every
   * directory in order, dir-major. The shared tasks are left holding the last directory.
   */
  method ProcessDirs(tasks: seq<ImageTask>, ghost recs: seq<TaskRecord>, dirs: seq<string>, threadCount: int,
                     fs: map<string, Picture>) returns (saves: seq<Saved>)
    requires threadCount >= 1 && |tasks| == |recs|
    requires forall j | 0 <= j < |tasks| ::
               tasks[j].inPath == recs[j].inPath && tasks[j].outPath == recs[j].outPath && tasks[j].effects == recs[j].effects
    modifies set u | u in tasks
    ensures saves == SavesOf(Expand(dirs, recs), fs, Sliced(threadCount))
    ensures |dirs| > 0 ==> forall u | u in tasks :: u.dataDir == dirs[|dirs| - 1]
    ensures |dirs| == 0 ==> forall u | u in tasks :: u.dataDir == old(u.dataDir)
  {
    saves := [];
    for d := 0 to |dirs|
      invariant saves == SavesOf(Expand(dirs[..d], recs), fs, Sliced(threadCount))
      invariant d > 0 ==> forall u | u in tasks :: u.dataDir == dirs[d - 1]
      invariant d == 0 ==> forall u | u in tasks :: u.dataDir == old(u.dataDir)
    {
      var dirSaves := ProcessDir(tasks, recs, dirs[d], threadCount, fs);
      SavesOfAppend(Expand(dirs[..d], recs), Retarget(recs, dirs[d]), fs, Sliced(threadCount));
      assert dirs[..d + 1][..d] == dirs[..d];
      saves := saves + dirSaves;
    }
    assert dirs[..|dirs|] == dirs;
  }

  /**
   * `RunParallelSlices(config)` (parslices.go:10-24): parse the effects file, then for every
   * directory of `dataDirs` and every task, set the task's data directory and process it.
   */
  method RunParallelSlices(dataDirs: string, threadCount: int, file: Catalog, decode: Decoder, fs: map<string, Picture>)
    returns (saves: seq<Saved>)
    requires threadCount >= 1
    ensures saves == SchedulerRun(dataDirs, file, decode, fs, Sliced(threadCount))
  {
    var tasks, err := ParseEffectsFile(file, decode);
    if err.Some? {
      return [];
    }
    var dirs := Split(dataDirs, '+');
    saves := ProcessDirs(tasks, Records(tasks), dirs, threadCount, fs);
  }
}
