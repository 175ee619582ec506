/**
 * proj1/scheduler/sequential.go: every data directory, every parsed task, one after the other,
 * each effect over the whole image followed by a buffer swap.
 */
module Sequential {
  import opened Wrappers
  import opened Raster
  import opened Effects
  import opened Tasks
  import opened Utils
  import opened Plans
  import opened Jobs

  /**
   * One turn of the effect loop (sequential.go:32-44): the pass the code names over rows
   * [minY, maxY), if it names one, then the swap.
   */
  method ApplyCode(img: Image, code: string, minY: int, maxY: int)
    requires img.Valid()
    modifies img, img.inBuf, img.outBuf
    ensures img.Valid() && {img.inBuf, img.outBuf} == old({img.inBuf, img.outBuf})
    ensures img.State() == Exec(old(img.State()), CodeCalls(code, minY, maxY))
  {
    ghost var before := img.State();
    match EffectOf(code) {
      case Some(e) => img.Apply(e, minY, maxY);
      case None =>
    }
    img.SwapBuffers();
    CodeEffect(before, code, minY, maxY);
  }

  /**
   * The effect loop of `RunSequential` and `processTask` (sequential.go:30-45): each code is
   * dispatched to its pass over the full bounds, unknown codes to none, and the buffers are
   * swapped after every code.
   */
  method ApplyEffects(img: Image, codes: seq<string>)
    requires img.Valid()
    modifies img, img.inBuf, img.outBuf
    ensures img.Valid()
    ensures img.State() == Exec(old(img.State()), FullPlan(img.bounds, codes))
  {
    ghost var s0 := img.State();
    ghost var buffers := {img.inBuf, img.outBuf};
    for i := 0 to |codes|
      invariant img.Valid() && {img.inBuf, img.outBuf} == buffers
      invariant img.State() == Exec(s0, FullPlan(s0.bounds, codes[..i]))
    {
      ApplyCode(img, codes[i], img.bounds.minY, img.bounds.maxY);
      FullPlanStep(s0, codes[..i], codes[i]);
      assert codes[..i + 1] == codes[..i] + [codes[i]];
    }
    assert codes[..|codes|] == codes;
  }

  /**
   * The body of the task loop of `RunSequential` (sequential.go:19-54): load the input from
   * the data directory, run every code over the full bounds, save under the output path.
   * A failed load skips the task (sequential.go:24-27).
   */
  method RunTask(task: ImageTask, dataDir: string, fs: map<string, Picture>) returns (save: Option<Saved>)
    ensures save == JobSave(task.Record().(dataDir := dataDir), fs, Full)
  {
    var inputFilePath := InputPath(dataDir, task.inPath);
    if inputFilePath !in fs {
      return None;
    }
    var img := new Image.Load(fs[inputFilePath]);
    ApplyEffects(img, task.effects);
    var outputFilePath := OutputPath(dataDir, task.outPath);
    save := Some(Saved(outputFilePath, img.State()));
  }

  /**
   * `RunSequential(config)` (sequential.go:9-57). The directories come from splitting
   * `dataDirs` on '+'; the effects file, the decoder and the images on disk are parameters;
   * the result lists the saves in the order they are made.
   */
  method RunSequential(dataDirs: string, file: Catalog, decode: Decoder, fs: map<string, Picture>)
    returns (saves: seq<Saved>)
    ensures saves == SchedulerRun(dataDirs, file, decode, fs, Full)
  {
    var dirs := Split(dataDirs, '+');
    var tasks, err := ParseEffectsFile(file, decode);
    if err.Some? {
      return [];
    }
    ghost var recs := Records(tasks);
    saves := [];
    for d := 0 to |dirs|
      invariant saves == SavesOf(Expand(dirs[..d], recs), fs, Full)
    {
      JobsBeforeFirst(dirs, recs, d);
      for t := 0 to |tasks|
        invariant saves == SavesOf(JobsBefore(dirs, recs, d, t), fs, Full)
      {
        var save := RunTask(tasks[t], dirs[d], fs);
        JobsBeforeNext(dirs, recs, d, t);
        SavesOfSnoc(JobsBefore(dirs, recs, d, t), recs[t].(dataDir := dirs[d]), fs, Full);
        if save.Some? {
          saves := saves + [save.value];
        }
      }
      JobsBeforeLast(dirs, recs, d);
    }
    assert dirs[..|dirs|] == dirs;
  }
}
