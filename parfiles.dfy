/**
 * proj1/scheduler/parfiles.go: every (directory, task) pair becomes a task of its own in a
 * shared queue, and min(ThreadCount, len(queue)) workers pop tasks off its front, under a
 * lock, until a pop finds it empty; each popped task is processed like a sequential one.
 *
 * Which worker pops next is up to the Go scheduler. Pool and Drain model the pops as a
 * sequence of atomic steps taken by arbitrary workers; the drain loop of RunParallelFiles
 * picks the next worker nondeterministically and is proved to follow Drain, so what it
 * proves holds for every schedule.
 */
module ParFiles {
  import opened Wrappers
  import opened Raster
  import opened Effects
  import opened Tasks
  import opened Utils
  import opened Plans
  import opened Jobs
  import opened Sequential

  // ---------------------------------------------------------------- the queue

  /** The queue of task pointers the workers share (`taskQueue`). */
  class TaskQueue {
    var items: seq<ImageTask>

    constructor (tasks: seq<ImageTask>)
      ensures items == tasks
    {
      items := tasks;
    }

    /**
     * The critical section of a worker (parfiles.go:44-49), one atomic step: the front task
     * and the rest of the queue when there is one, nil and the queue left empty otherwise.
     */
    method Pop() returns (task: ImageTask?)
      modifies this
      ensures old(items) == [] ==> task == null && items == []
      ensures old(items) != [] ==> task == old(items)[0] && items == old(items)[1..]
    {
      if |items| > 0 {
        task := items[0];
        items := items[1..];
      } else {
        task := null;
      }
    }
  }

  /**
   * The queue built by parfiles.go:22-29: for each directory, for each parsed task in order,
   * a copy of the task with that directory as its data directory. The parsed tasks are only
   * read (the method modifies nothing that existed before it).
   */
  method ExpandQueue(dirs: seq<string>, tasks: seq<ImageTask>) returns (queue: seq<ImageTask>)
    ensures Records(queue) == Expand(dirs, Records(tasks))
    ensures forall u | u in queue :: fresh(u)
  {
    ghost var recs := Records(tasks);
    queue := [];
    for d := 0 to |dirs|
      invariant Records(tasks) == recs
      invariant Records(queue) == Expand(dirs[..d], recs)
      invariant forall u | u in queue :: fresh(u)
    {
      JobsBeforeFirst(dirs, recs, d);
      for t := 0 to |tasks|
        invariant Records(tasks) == recs
        invariant Records(queue) == JobsBefore(dirs, recs, d, t)
        invariant forall u | u in queue :: fresh(u)
      {
        var newTask := new ImageTask(tasks[t].Record().(dataDir := dirs[d]));
        JobsBeforeNext(dirs, recs, d, t);
        assert Records(queue + [newTask]) == Records(queue) + [newTask.Record()];
        queue := queue + [newTask];
      }
      JobsBeforeLast(dirs, recs, d);
    }
    assert dirs[..|dirs|] == dirs;
  }

  // ---------------------------------------------------------------- the pool of workers

  /** The shared queue, the workers still running and the tasks popped so far, in pop order. */
  datatype Pool<T> = Pool(queue: seq<T>, alive: set<int>, popped: seq<T>)

  /**
   * Worker w takes a step: a worker that has exited does nothing; a pop that finds the queue
   * empty makes the worker exit; otherwise the worker takes the front task.
   */
  function PopStep<T>(p: Pool<T>, w: int): (q: Pool<T>)
    ensures q.alive <= p.alive
    ensures w in p.alive && p.queue != [] ==> q.alive == p.alive && q.popped == p.popped + [p.queue[0]] && q.queue == p.queue[1..]
    ensures w in p.alive && p.queue == [] ==> q.alive == p.alive - {w} && q.popped == p.popped && q.queue == []
    ensures w !in p.alive ==> q == p
  {
    if w !in p.alive then p
    else if p.queue == [] then p.(alive := p.alive - {w})
    else Pool(p.queue[1..], p.alive, p.popped + [p.queue[0]])
  }

  /** The pool after the workers of the schedule take their steps in order. */
  function Drain<T>(p: Pool<T>, schedule: seq<int>): Pool<T>
  {
    if schedule == [] then p else PopStep(Drain(p, schedule[..|schedule| - 1]), schedule[|schedule| - 1])
  }

  /** One more step of the schedule is one more PopStep. */
  lemma DrainSnoc<T>(p: Pool<T>, schedule: seq<int>, w: int)
    ensures Drain(p, schedule + [w]) == PopStep(Drain(p, schedule), w)
  {
    assert (schedule + [w])[..|schedule|] == schedule;
  }

  /** Whatever the schedule, no task is lost or duplicated: popped tasks and queue make up the original queue. */
  lemma {:induction false} DrainConserves<T>(p: Pool<T>, schedule: seq<int>)
    ensures Drain(p, schedule).popped + Drain(p, schedule).queue == p.popped + p.queue
  {
    if schedule != [] {
      var before := Drain(p, schedule[..|schedule| - 1]);
      DrainConserves(p, schedule[..|schedule| - 1]);
      if schedule[|schedule| - 1] in before.alive && before.queue != [] {
        assert before.queue == [before.queue[0]] + before.queue[1..];
        assert before.popped + before.queue == (before.popped + [before.queue[0]]) + before.queue[1..];
      }
    }
  }

  /**
   * A worker exits only on an empty queue, and nothing refills the queue: once any of the
   * `workers` has exited, the queue stays empty, whatever the schedule.
   */
  predicate Settled<T>(p: Pool<T>, workers: set<int>) {
    p.alive <= workers && (p.alive != workers ==> p.queue == [])
  }

  lemma {:induction false} DrainStaysSettled<T>(p: Pool<T>, workers: set<int>, schedule: seq<int>)
    requires Settled(p, workers)
    ensures Settled(Drain(p, schedule), workers)
  {
    if schedule != [] {
      DrainStaysSettled(p, workers, schedule[..|schedule| - 1]);
    }
  }

  /**
   * Exactly once: when at least one worker starts and every worker has exited, the queue is
   * empty and every task of it was popped once, in queue order, whatever the schedule.
   */
  lemma ExactlyOnce<T>(queue: seq<T>, workers: set<int>, schedule: seq<int>)
    requires workers != {}
    requires Drain(Pool(queue, workers, []), schedule).alive == {}
    ensures Drain(Pool(queue, workers, []), schedule).queue == []
    ensures Drain(Pool(queue, workers, []), schedule).popped == queue
  {
    var p := Pool(queue, workers, []);
    DrainStaysSettled(p, workers, schedule);
    DrainConserves(p, schedule);
    assert [] + queue == queue;
  }

  // ---------------------------------------------------------------- processing

  /**
   * `processTask(task)` (parfiles.go:65-102): the sequential effect loop on the task's
   * input; a failed load returns without saving.
   */
  method ProcessTask(task: ImageTask, fs: map<string, Picture>) returns (save: Option<Saved>)
    ensures save == JobSave(task.Record(), fs, Full)
  {
    var inputFilePath := InputPath(task.dataDir, task.inPath);
    if inputFilePath !in fs {
      return None;
    }
    var img := new Image.Load(fs[inputFilePath]);
    ApplyEffects(img, task.effects);
    var outputFilePath := OutputPath(task.dataDir, task.outPath);
    save := Some(Saved(outputFilePath, img.State()));
  }

  /** The ids of n workers, 0 .. n-1. */
  function WorkerIds(n: nat): (ids: set<int>)
    ensures forall i :: i in ids <==> 0 <= i < n
  {
    if n == 0 then {} else WorkerIds(n - 1) + {n - 1}
  }

  /**
   * One turn of a worker's loop (parfiles.go:41-57): pop; on nil the worker is done,
   * otherwise the popped task is processed.
   */
  method WorkerTurn(q: TaskQueue, fs: map<string, Picture>) returns (task: ImageTask?, save: Option<Saved>)
    modifies q
    ensures old(q.items) == [] ==> task == null && save == None && q.items == []
    ensures old(q.items) != [] ==>
              && task == old(q.items)[0] && q.items == old(q.items)[1..]
              && save == JobSave(task.Record(), fs, Full)
  {
    task := q.Pop();
    if task == null {
      return task, None;
    }
    save := ProcessTask(task, fs);
  }

  /**
   * The workers (parfiles.go:31-62): numThreads of them pop and process until each finds the
   * queue empty. The next worker to act is any one still running. Saves are listed in the
   * order their tasks were popped.
   */
  method RunWorkers(q: TaskQueue, ghost jobs: seq<TaskRecord>, numThreads: nat, fs: map<string, Picture>)
    returns (saves: seq<Saved>)
    requires Records(q.items) == jobs
    modifies q
    ensures numThreads == 0 ==> saves == [] && q.items == old(q.items)
    ensures numThreads >= 1 ==> q.items == []
    ensures numThreads >= 1 ==> saves == SavesOf(jobs, fs, Full)
  {
    saves := [];
    if numThreads == 0 {
      // No goroutine is started, so nobody touches the queue.
      return;
    }
    var alive := WorkerIds(numThreads);
    ghost var pool0 := Pool(jobs, alive, []);
    ghost var schedule: seq<int> := [];
    while alive != {}
      invariant Drain(pool0, schedule).queue == Records(q.items) && Drain(pool0, schedule).alive == alive
      invariant saves == SavesOf(Drain(pool0, schedule).popped, fs, Full)
      invariant alive <= pool0.alive
      decreases |q.items| + |alive|
    {
      var w :| w in alive;
      ghost var before := Drain(pool0, schedule);
      ghost var items := q.items;
      var task, save := WorkerTurn(q, fs);
      DrainSnoc(pool0, schedule, w);
      schedule := schedule + [w];
      if task == null {
        alive := alive - {w};
      } else {
        RecordsTail(items);
        SavesOfSnoc(before.popped, task.Record(), fs, Full);
        if save.Some? {
          saves := saves + [save.value];
        }
      }
    }
    assert 0 in pool0.alive;
    ExactlyOnce(jobs, pool0.alive, schedule);
    assert |q.items| == |Records(q.items)|;
  }

  /**
   * `RunParallelFiles(config)` (parfiles.go:11-63): parse the effects file, build the queue,
   * start min(ThreadCount, len(queue)) workers and wait for all of them.
   */
  method RunParallelFiles(dataDirs: string, threadCount: int, file: Catalog, decode: Decoder, fs: map<string, Picture>)
    returns (saves: seq<Saved>)
    requires threadCount >= 0
    ensures threadCount == 0 ==> saves == []
    ensures threadCount >= 1 ==> saves == SchedulerRun(dataDirs, file, decode, fs, Full)
  {
    var dirs := Split(dataDirs, '+');
    var tasks, err := ParseEffectsFile(file, decode);
    if err.Some? {
      return [];
    }
    var taskQueue := ExpandQueue(dirs, tasks);
    var numThreads := Min(threadCount, |taskQueue|);
    var q := new TaskQueue(taskQueue);
    saves := RunWorkers(q, Records(taskQueue), numThreads, fs);
    if threadCount >= 1 && numThreads == 0 {
      assert Expand(dirs, Records(tasks)) == [];
    }
  }
}
