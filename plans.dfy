/**
 * The effect loop the three schedulers share: each effect code of a task is dispatched on
 * "G", "S", "E" or "B" to a pass of the effect engine, and `SwapBuffers` follows every code,
 * unknown ones included.
 *
 * A run of the engine is described as a sequence of calls (a pass over a band of rows, or a
 * swap); Exec gives the buffers after the calls. FullPlan is the call sequence of the
 * sequential scheduler and of `processTask`; the slice scheduler's is in module Slices.
 */
module Plans {
  import opened Wrappers
  import opened Raster
  import opened Kernels
  import opened Effects

  /** The `switch effect` of the schedulers: the effect a code names, None for any other code. */
  function EffectOf(code: string): Option<Effect>
  {
    if code == "G" then Some(Grayscale)
    else if code == "S" then Some(Convolution(SharpenKernel))
    else if code == "E" then Some(Convolution(EdgeDetectionKernel))
    else if code == "B" then Some(Convolution(BlurKernel))
    else None
  }

  /** One call on an image: a pass of an effect over rows [minY, maxY), or `SwapBuffers()`. */
  datatype Call = Run(effect: Effect, minY: int, maxY: int) | Swap

  function Step(s: ImageState, c: Call): (t: ImageState)
    requires s.Valid()
    ensures t.Valid() && t.bounds == s.bounds
  {
    match c
    case Run(e, minY, maxY) => ApplyEffect(s, e, minY, maxY)
    case Swap => s.Swapped()
  }

  /** The buffers after making the calls in order. */
  function Exec(s: ImageState, calls: seq<Call>): (t: ImageState)
    requires s.Valid()
    ensures t.Valid() && t.bounds == s.bounds
  {
    if calls == [] then s else Step(Exec(s, calls[..|calls| - 1]), calls[|calls| - 1])
  }

  /** Making the calls a and then the calls b is making the calls a + b. */
  lemma {:induction false} ExecAppend(s: ImageState, a: seq<Call>, b: seq<Call>)
    requires s.Valid()
    ensures Exec(s, a + b) == Exec(Exec(s, a), b)
    decreases |b|
  {
    if b != [] {
      assert (a + b)[..|a + b| - 1] == a + b[..|b| - 1];
      ExecAppend(s, a, b[..|b| - 1]);
    } else {
      assert a + b == a;
    }
  }

  /** Making one more call is one more step. */
  lemma ExecSnoc(s: ImageState, calls: seq<Call>, c: Call)
    requires s.Valid()
    ensures Exec(s, calls + [c]) == Step(Exec(s, calls), c)
  {
    assert (calls + [c])[..|calls|] == calls;
  }

  /** The number of swaps among the calls. */
  function Swaps(calls: seq<Call>): nat
  {
    if calls == [] then 0
    else Swaps(calls[..|calls| - 1]) + (if calls[|calls| - 1].Swap? then 1 else 0)
  }

  lemma {:induction false} SwapsAppend(a: seq<Call>, b: seq<Call>)
    ensures Swaps(a + b) == Swaps(a) + Swaps(b)
    decreases |b|
  {
    if b != [] {
      assert (a + b)[..|a + b| - 1] == a + b[..|b| - 1];
      SwapsAppend(a, b[..|b| - 1]);
    } else {
      assert a + b == a;
    }
  }

  /** The calls for one code over rows [minY, maxY): its pass, if the code is known, then a swap. */
  function CodeCalls(code: string, minY: int, maxY: int): seq<Call>
  {
    (match EffectOf(code)
     case Some(e) => [Run(e, minY, maxY)]
     case None => []) + [Swap]
  }

  /**
   * One code, run: a known code applies its effect over the rows and then swaps, so its
   * result becomes the next input; an unknown code writes no pixel and only swaps.
   */
  lemma CodeEffect(s: ImageState, code: string, minY: int, maxY: int)
    requires s.Valid()
    ensures EffectOf(code).None? ==> Exec(s, CodeCalls(code, minY, maxY)) == s.Swapped()
    ensures EffectOf(code).Some? ==>
              Exec(s, CodeCalls(code, minY, maxY)) == ApplyEffect(s, EffectOf(code).value, minY, maxY).Swapped()
    ensures Exec(s, CodeCalls(code, minY, maxY)).output == s.input
  {
    var calls := CodeCalls(code, minY, maxY);
    if EffectOf(code).Some? {
      var e := EffectOf(code).value;
      assert calls[..1] == [Run(e, minY, maxY)];
      assert calls[..1][..0] == [];
      assert Exec(s, calls[..1]) == ApplyEffect(s, e, minY, maxY);
    } else {
      assert calls[..0] == [];
    }
  }

  /** The calls of the sequential scheduler and of `processTask`: every code over the full bounds. */
  function FullPlan(bounds: Rect, codes: seq<string>): seq<Call>
  {
    if codes == [] then []
    else FullPlan(bounds, codes[..|codes| - 1]) + CodeCalls(codes[|codes| - 1], bounds.minY, bounds.maxY)
  }

  /** k codes make k swaps, one per code, known or not. */
  lemma {:induction false} FullPlanSwaps(bounds: Rect, codes: seq<string>)
    ensures Swaps(FullPlan(bounds, codes)) == |codes|
  {
    if codes != [] {
      var code := codes[|codes| - 1];
      FullPlanSwaps(bounds, codes[..|codes| - 1]);
      SwapsAppend(FullPlan(bounds, codes[..|codes| - 1]), CodeCalls(code, bounds.minY, bounds.maxY));
      if EffectOf(code).Some? {
        SwapsAppend([Run(EffectOf(code).value, bounds.minY, bounds.maxY)], [Swap]);
        assert [Run(EffectOf(code).value, bounds.minY, bounds.maxY)][..0] == [];
      }
      assert [Swap][..0] == [];
    }
  }

  /** Every pass of the full plan covers the whole row range of the image. */
  lemma {:induction false} FullPlanCoversAllRows(bounds: Rect, codes: seq<string>)
    ensures forall c | c in FullPlan(bounds, codes) && c.Run? :: c.minY == bounds.minY && c.maxY == bounds.maxY
  {
    if codes != [] {
      FullPlanCoversAllRows(bounds, codes[..|codes| - 1]);
    }
  }

  /** Running the full plan of codes + [code] is running the codes and then the one code. */
  lemma FullPlanStep(s: ImageState, codes: seq<string>, code: string)
    requires s.Valid()
    ensures Exec(s, FullPlan(s.bounds, codes + [code]))
            == Exec(Exec(s, FullPlan(s.bounds, codes)), CodeCalls(code, s.bounds.minY, s.bounds.maxY))
  {
    assert (codes + [code])[..|codes|] == codes;
    ExecAppend(s, FullPlan(s.bounds, codes), CodeCalls(code, s.bounds.minY, s.bounds.maxY));
  }

  /**
   * The swap after an unknown code is not a no-op: it hands back the buffer the previous
   * code read, so whatever follows the unknown code works on the buffers from before that
   * previous code, and that code's result goes unused as input.
   */
  lemma UnknownCodeRestoresInput(s: ImageState, codes: seq<string>, code: string, unknown: string)
    requires s.Valid() && EffectOf(unknown).None?
    ensures Exec(s, FullPlan(s.bounds, codes + [code, unknown])).input == Exec(s, FullPlan(s.bounds, codes)).input
  {
    var mid := Exec(s, FullPlan(s.bounds, codes));
    FullPlanStep(s, codes, code);
    CodeEffect(mid, code, s.bounds.minY, s.bounds.maxY);
    assert codes + [code, unknown] == (codes + [code]) + [unknown];
    FullPlanStep(s, codes + [code], unknown);
    CodeEffect(Exec(s, FullPlan(s.bounds, codes + [code])), unknown, s.bounds.minY, s.bounds.maxY);
  }
}
