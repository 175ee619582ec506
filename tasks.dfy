/**
 * The task type the schedulers pass around (`png.ImageTask`): one line of the effects file,
 * naming an input image, an output image and the effect codes to apply, plus the data
 * directory the scheduler assigns to it.
 */
module Tasks {

  /** The value of an `ImageTask`. */
  datatype TaskRecord = TaskRecord(dataDir: string, inPath: string, outPath: string, effects: seq<string>)

  /**
   * A `*png.ImageTask`. The schedulers only ever assign `DataDir`; the other fields keep what
   * the decoder gave them.
   */
  class ImageTask {
    var dataDir: string
    const inPath: string
    const outPath: string
    const effects: seq<string>

    /** A freshly decoded task holding the fields of `r`. */
    constructor (r: TaskRecord)
      ensures Record() == r
    {
      dataDir, inPath, outPath, effects := r.dataDir, r.inPath, r.outPath, r.effects;
    }

    function Record(): TaskRecord
      reads this
    {
      TaskRecord(dataDir, inPath, outPath, effects)
    }
  }

  /** The values of a list of task pointers, in order. */
  function Records(ts: seq<ImageTask>): (rs: seq<TaskRecord>)
    reads set t | t in ts
    ensures |rs| == |ts|
    ensures forall i | 0 <= i < |ts| :: rs[i] == ts[i].Record()
  {
    seq(|ts|, i requires 0 <= i < |ts| reads set t | t in ts => ts[i].Record())
  }

  /** Taking the front pointer off the list takes the front value off its values. */
  lemma RecordsTail(ts: seq<ImageTask>)
    requires ts != []
    ensures Records(ts[1..]) == Records(ts)[1..]
  {
  }

  /** Appending a pointer appends its value. */
  lemma RecordsSnoc(ts: seq<ImageTask>, t: ImageTask)
    ensures Records(ts + [t]) == Records(ts) + [t.Record()]
  {
  }

  /** No pointer occurs twice in the list. */
  predicate Distinct(ts: seq<ImageTask>) {
    forall i, j | 0 <= i < j < |ts| :: ts[i] != ts[j]
  }
}
