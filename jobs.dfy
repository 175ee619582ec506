/**
 * What the three schedulers share above the effect loop: the `+`-separated data directories,
 * the dir-major expansion of the parsed tasks into jobs, the file paths of a job, and what a
 * job leaves behind.
 *
 * The file system is a map from a path to the image `png.Load` reads there (a path that is
 * not in the map fails to load). `img.Save` is recorded, not performed: a run yields the list
 * of Saved(path, buffers) in the order the saves are made. A save error is only printed by
 * the schedulers and changes nothing, so the record is the same whether or not it fails.
 */
module Jobs {
  import opened Wrappers
  import opened Raster
  import opened Tasks
  import opened Utils
  import opened Plans
  import opened Slices

  // ---------------------------------------------------------------- paths

  /** `fmt.Sprintf("../data/in/%s/%s", dataDir, inPath)`. */
  function InputPath(dataDir: string, inPath: string): string {
    "../data/in/" + dataDir + "/" + inPath
  }

  /** `fmt.Sprintf("../data/out/%s_%s", dataDir, outPath)`. */
  function OutputPath(dataDir: string, outPath: string): string {
    "../data/out/" + dataDir + "_" + outPath
  }

  /** Within one data directory, distinct input names are distinct paths. */
  lemma InputPathsDistinct(dataDir: string, p: string, q: string)
    ensures InputPath(dataDir, p) == InputPath(dataDir, q) <==> p == q
  {
    var n := |"../data/in/" + dataDir + "/"|;
    if InputPath(dataDir, p) == InputPath(dataDir, q) {
      assert InputPath(dataDir, p)[n..] == p;
      assert InputPath(dataDir, q)[n..] == q;
    }
  }

  /** Within one data directory, distinct output names are distinct paths: no job overwrites another's output. */
  lemma OutputPathsDistinct(dataDir: string, p: string, q: string)
    ensures OutputPath(dataDir, p) == OutputPath(dataDir, q) <==> p == q
  {
    var n := |"../data/out/" + dataDir + "_"|;
    if OutputPath(dataDir, p) == OutputPath(dataDir, q) {
      assert OutputPath(dataDir, p)[n..] == p;
      assert OutputPath(dataDir, q)[n..] == q;
    }
  }

  // ---------------------------------------------------------------- data directories

  /** `strings.Split(s, string(sep))`: the pieces between the separators, at least one. */
  function Split(s: string, sep: char): (parts: seq<string>)
    ensures |parts| >= 1
    ensures forall i | 0 <= i < |parts| :: sep !in parts[i]
  {
    if |s| == 0 then [""]
    else if s[0] == sep then [""] + Split(s[1..], sep)
    else [[s[0]] + Split(s[1..], sep)[0]] + Split(s[1..], sep)[1..]
  }

  /** `strings.Join(parts, string(sep))`. */
  function Join(parts: seq<string>, sep: char): string
    requires |parts| >= 1
  {
    if |parts| == 1 then parts[0] else parts[0] + [sep] + Join(parts[1..], sep)
  }

  /** Joining the pieces back gives the string that was split. */
  lemma {:induction false} JoinSplit(s: string, sep: char)
    ensures Join(Split(s, sep), sep) == s
  {
    if |s| > 0 {
      var rest := Split(s[1..], sep);
      JoinSplit(s[1..], sep);
      if s[0] == sep {
        assert ([""] + rest)[1..] == rest;
      } else {
        var parts := Split(s, sep);
        assert parts[1..] == rest[1..];
        if |rest| > 1 {
          assert rest == [rest[0]] + rest[1..];
        }
        assert s == [s[0]] + s[1..];
      }
    }
  }

  /** Splitting a string with no separator in front of `t`: the string joins t's first piece. */
  lemma {:induction false} SplitPrefix(a: string, t: string, sep: char)
    requires sep !in a
    ensures Split(a + t, sep) == [a + Split(t, sep)[0]] + Split(t, sep)[1..]
  {
    if a == [] {
      assert a + t == t;
      assert a + Split(t, sep)[0] == Split(t, sep)[0];
      assert Split(t, sep) == [Split(t, sep)[0]] + Split(t, sep)[1..];
    } else {
      assert (a + t)[0] == a[0];
      assert (a + t)[1..] == a[1..] + t;
      SplitPrefix(a[1..], t, sep);
      assert [a[0]] + (a[1..] + Split(t, sep)[0]) == a + Split(t, sep)[0];
    }
  }

  /** Splitting pieces that hold no separator, once joined, gives the pieces back. */
  lemma {:induction false} SplitJoin(parts: seq<string>, sep: char)
    requires |parts| >= 1 && forall i | 0 <= i < |parts| :: sep !in parts[i]
    ensures Split(Join(parts, sep), sep) == parts
  {
    var p := parts[0];
    if |parts| == 1 {
      SplitPrefix(p, "", sep);
      assert p + "" == p;
    } else {
      var rest := parts[1..];
      SplitJoin(rest, sep);
      assert p + [sep] + Join(rest, sep) == p + ([sep] + Join(rest, sep));
      SplitPrefix(p, [sep] + Join(rest, sep), sep);
      assert ([sep] + Join(rest, sep))[1..] == Join(rest, sep);
      assert p + "" == p;
      assert parts == [p] + rest;
    }
  }

  // ---------------------------------------------------------------- jobs

  /** The tasks with their `DataDir` set to dir. */
  function Retarget(recs: seq<TaskRecord>, dir: string): (rs: seq<TaskRecord>)
    ensures |rs| == |recs|
    ensures forall i | 0 <= i < |recs| :: rs[i] == recs[i].(dataDir := dir)
  {
    seq(|recs|, i requires 0 <= i < |recs| => recs[i].(dataDir := dir))
  }

  /** The jobs of a run, dir-major: for each directory in order, every task in order. */
  function Expand(dirs: seq<string>, recs: seq<TaskRecord>): seq<TaskRecord>
  {
    if dirs == [] then []
    else Expand(dirs[..|dirs| - 1], recs) + Retarget(recs, dirs[|dirs| - 1])
  }

  lemma MulStep(a: int, b: int)
    ensures (a - 1) * b + b == a * b
  {
  }

  lemma MulBound(d: nat, t: nat, n: nat, m: nat)
    requires d < n && t < m
    ensures d * m + t < n * m
  {
    assert (d + 1) * m <= n * m;
  }

  /**
   * There are |dirs| * |tasks| jobs, and job d * |tasks| + t is task t with directory d; its
   * other fields are the task's own.
   */
  lemma {:induction false} ExpandAt(dirs: seq<string>, recs: seq<TaskRecord>, d: nat, t: nat)
    requires d < |dirs| && t < |recs|
    ensures |Expand(dirs, recs)| == |dirs| * |recs|
    ensures d * |recs| + t < |Expand(dirs, recs)|
    ensures Expand(dirs, recs)[d * |recs| + t] == recs[t].(dataDir := dirs[d])
    decreases |dirs|
  {
    var init := dirs[..|dirs| - 1];
    ExpandLength(init, recs);
    MulStep(|dirs|, |recs|);
    MulBound(d, t, |dirs|, |recs|);
    if d < |dirs| - 1 {
      ExpandAt(init, recs, d, t);
    } else {
      assert d * |recs| == |init| * |recs|;
    }
  }

  lemma {:induction false} ExpandLength(dirs: seq<string>, recs: seq<TaskRecord>)
    ensures |Expand(dirs, recs)| == |dirs| * |recs|
  {
    if dirs != [] {
      ExpandLength(dirs[..|dirs| - 1], recs);
      MulStep(|dirs|, |recs|);
    }
  }

  // ---------------------------------------------------------------- what a job leaves

  /** One `img.Save(path)`: the path and the image's two buffers at that moment. */
  datatype Saved = Saved(path: string, image: ImageState)

  /** How a scheduler runs a task's codes: over the full bounds, or in numThreads slices. */
  datatype Plan = Full | Sliced(numThreads: int) {
    predicate Valid() { Sliced? ==> numThreads >= 1 }
  }

  function PlanCalls(plan: Plan, bounds: Rect, codes: seq<string>): seq<Call>
    requires plan.Valid() && bounds.WellFormed()
  {
    match plan
    case Full => FullPlan(bounds, codes)
    case Sliced(n) => SlicePlan(bounds, codes, n)
  }

  /**
   * A job: load its input; on failure nothing else happens; otherwise run its codes and save
   * the result under its output path.
   */
  function JobSave(job: TaskRecord, fs: map<string, Picture>, plan: Plan): Option<Saved>
    requires plan.Valid()
  {
    if InputPath(job.dataDir, job.inPath) in fs then
      Some(Saved(OutputPath(job.dataDir, job.outPath),
                 Exec(fs[InputPath(job.dataDir, job.inPath)],
                      PlanCalls(plan, fs[InputPath(job.dataDir, job.inPath)].bounds, job.effects))))
    else None
  }

  /** The saves of the jobs, run one after the other. */
  function SavesOf(jobs: seq<TaskRecord>, fs: map<string, Picture>, plan: Plan): seq<Saved>
    requires plan.Valid()
  {
    if jobs == [] then []
    else SavesOf(jobs[..|jobs| - 1], fs, plan)
         + (match JobSave(jobs[|jobs| - 1], fs, plan) case Some(v) => [v] case None => [])
  }

  lemma {:induction false} SavesOfAppend(a: seq<TaskRecord>, b: seq<TaskRecord>, fs: map<string, Picture>, plan: Plan)
    requires plan.Valid()
    ensures SavesOf(a + b, fs, plan) == SavesOf(a, fs, plan) + SavesOf(b, fs, plan)
    decreases |b|
  {
    if b == [] {
      assert a + b == a;
    } else {
      assert (a + b)[..|a + b| - 1] == a + b[..|b| - 1];
      SavesOfAppend(a, b[..|b| - 1], fs, plan);
    }
  }

  /** The saves a job adds: its save, or nothing when its input fails to load. */
  function SaveOf(job: TaskRecord, fs: map<string, Picture>, plan: Plan): (r: seq<Saved>)
    requires plan.Valid()
    ensures |r| <= 1
    ensures r == [] <==> InputPath(job.dataDir, job.inPath) !in fs
  {
    match JobSave(job, fs, plan) case Some(v) => [v] case None => []
  }

  /** Running one more job appends what that job saves. */
  lemma SavesOfSnoc(jobs: seq<TaskRecord>, job: TaskRecord, fs: map<string, Picture>, plan: Plan)
    requires plan.Valid()
    ensures SavesOf(jobs + [job], fs, plan) == SavesOf(jobs, fs, plan) + SaveOf(job, fs, plan)
  {
    assert (jobs + [job])[..|jobs|] == jobs;
  }

  /** The jobs that come before task t of directory d in dir-major order. */
  function JobsBefore(dirs: seq<string>, recs: seq<TaskRecord>, d: nat, t: nat): seq<TaskRecord>
    requires d < |dirs| && t <= |recs|
  {
    Expand(dirs[..d], recs) + Retarget(recs, dirs[d])[..t]
  }

  /** The first task of a directory comes after every job of the earlier directories. */
  lemma JobsBeforeFirst(dirs: seq<string>, recs: seq<TaskRecord>, d: nat)
    requires d < |dirs|
    ensures JobsBefore(dirs, recs, d, 0) == Expand(dirs[..d], recs)
  {
    assert Retarget(recs, dirs[d])[..0] == [];
  }

  /** Task t of directory d is the job right after the ones before it. */
  lemma JobsBeforeNext(dirs: seq<string>, recs: seq<TaskRecord>, d: nat, t: nat)
    requires d < |dirs| && t < |recs|
    ensures JobsBefore(dirs, recs, d, t + 1) == JobsBefore(dirs, recs, d, t) + [recs[t].(dataDir := dirs[d])]
  {
    assert Retarget(recs, dirs[d])[..t + 1] == Retarget(recs, dirs[d])[..t] + [recs[t].(dataDir := dirs[d])];
  }

  /** After the last task of directory d come the jobs of directories d + 1 onwards. */
  lemma JobsBeforeLast(dirs: seq<string>, recs: seq<TaskRecord>, d: nat)
    requires d < |dirs|
    ensures JobsBefore(dirs, recs, d, |recs|) == Expand(dirs[..d + 1], recs)
  {
    assert dirs[..d + 1][..d] == dirs[..d];
    assert Retarget(recs, dirs[d])[..|recs|] == Retarget(recs, dirs[d]);
  }

  /** A job whose input fails to load is skipped; the jobs before and after it still run. */
  lemma LoadFailureSkipsOnlyThatJob(a: seq<TaskRecord>, job: TaskRecord, b: seq<TaskRecord>,
                                    fs: map<string, Picture>, plan: Plan)
    requires plan.Valid() && InputPath(job.dataDir, job.inPath) !in fs
    ensures SavesOf(a + [job] + b, fs, plan) == SavesOf(a + b, fs, plan)
  {
    SavesOfAppend(a + [job], b, fs, plan);
    SavesOfAppend(a, [job], fs, plan);
    SavesOfAppend(a, b, fs, plan);
    assert [job][..0] == [];
  }

  /**
   * When every input loads, there is one save per job, in job order, at the job's output path,
   * holding the buffers after running the job's codes on its input.
   */
  lemma {:induction false} SavesOfAllLoaded(jobs: seq<TaskRecord>, fs: map<string, Picture>, plan: Plan)
    requires plan.Valid()
    requires forall i | 0 <= i < |jobs| :: InputPath(jobs[i].dataDir, jobs[i].inPath) in fs
    ensures |SavesOf(jobs, fs, plan)| == |jobs|
    ensures forall i | 0 <= i < |jobs| ::
              && SavesOf(jobs, fs, plan)[i].path == OutputPath(jobs[i].dataDir, jobs[i].outPath)
              && Some(SavesOf(jobs, fs, plan)[i]) == JobSave(jobs[i], fs, plan)
  {
    if jobs != [] {
      var init := jobs[..|jobs| - 1];
      assert forall i | 0 <= i < |init| :: init[i] == jobs[i];
      SavesOfAllLoaded(init, fs, plan);
    }
  }

  /** With one thread the slice scheduler saves exactly what the sequential scheduler saves. */
  lemma {:induction false} OneThreadSavesAsSequential(jobs: seq<TaskRecord>, fs: map<string, Picture>)
    ensures SavesOf(jobs, fs, Sliced(1)) == SavesOf(jobs, fs, Full)
  {
    if jobs != [] {
      OneThreadSavesAsSequential(jobs[..|jobs| - 1], fs);
      var job := jobs[|jobs| - 1];
      var path := InputPath(job.dataDir, job.inPath);
      if path in fs {
        OneSliceIsFullPlan(fs[path].bounds, job.effects);
      }
    }
  }

  // ---------------------------------------------------------------- a whole run

  /**
   * What a run of a scheduler saves: nothing when the effects file fails to parse, otherwise
   * the saves of the jobs of every directory of `dataDirs` and every parsed task, dir-major.
   */
  function SchedulerRun(dataDirs: string, file: Catalog, decode: Decoder, fs: map<string, Picture>, plan: Plan): seq<Saved>
    requires plan.Valid()
  {
    match ParseCatalog(file, decode)
    case Err(_) => []
    case Ok(recs) => SavesOf(Expand(Split(dataDirs, '+'), recs), fs, plan)
  }

  /** A parse failure means no job runs and nothing is saved. */
  lemma ParseFailureSavesNothing(dataDirs: string, file: Catalog, decode: Decoder, fs: map<string, Picture>, plan: Plan)
    requires plan.Valid()
    ensures ParseCatalog(file, decode).Err? ==> SchedulerRun(dataDirs, file, decode, fs, plan) == []
    ensures file.Opened? && (exists i | 0 <= i < |file.lines| :: decode(file.lines[i]).Err?) ==>
              SchedulerRun(dataDirs, file, decode, fs, plan) == []
  {
    ParseCatalogOutcome(file, decode);
  }
}
