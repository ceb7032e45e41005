/** Vocabulary shared by both squelch engines: what an engine decides to do
    with one sample, the fade gain it applies, and how a run of decisions
    becomes output samples. */
module Signal {

  /** The per-sample decision of an engine: leave the sample as it is, replace
      it by exact digital silence, or scale it by the fade gain at ramp
      position `index`. */
  datatype Out = Pass | Zero | Scaled(index: int)

  /** The fade gain: given a sample, a ramp position and the ramp length, the
      scaled sample. The engines compute it in floating point (a smoothstep
      curve in src/squelch.cc, a linear ratio in squelch.c); the model keeps
      it abstract. */
  type Gain = (int, int, int) -> int

  /** Magnitude of a sample, as `abs` on a promoted 16-bit sample. */
  function Abs(x: int): (r: nat)
    ensures r == x || r == -x
  {
    if x < 0 then -x else x
  }

  /** The output sample for input `s` under decision `out`. */
  function Emit(gain: Gain, length: int, out: Out, s: int): int
  {
    match out
    case Pass => s
    case Zero => 0
    case Scaled(i) => gain(s, i, length)
  }

  /** The output samples for inputs `xs` under the decisions `outs`, position
      by position. */
  function Render(gain: Gain, length: int, xs: seq<int>, outs: seq<Out>): (ys: seq<int>)
    requires |outs| == |xs|
    ensures |ys| == |xs|
    ensures forall k :: 0 <= k < |xs| ==> ys[k] == Emit(gain, length, outs[k], xs[k])
  {
    seq(|xs|, k requires 0 <= k < |xs| => Emit(gain, length, outs[k], xs[k]))
  }

  lemma RenderAppend(gain: Gain, length: int, xs: seq<int>, ys: seq<int>, os: seq<Out>, ps: seq<Out>)
    requires |os| == |xs| && |ps| == |ys|
    ensures Render(gain, length, xs + ys, os + ps)
         == Render(gain, length, xs, os) + Render(gain, length, ys, ps)
  {
    var whole := Render(gain, length, xs + ys, os + ps);
    var parts := Render(gain, length, xs, os) + Render(gain, length, ys, ps);
    assert |whole| == |parts|;
    forall k | 0 <= k < |whole| ensures whole[k] == parts[k] {
      if k >= |xs| {
        assert (xs + ys)[k] == ys[k - |xs|] && (os + ps)[k] == ps[k - |xs|];
      }
    }
  }

  /** The concatenation of a sequence of chunks, in order. */
  function Flatten(chunks: seq<seq<int>>): (s: seq<int>)
  {
    if chunks == [] then [] else Flatten(chunks[..|chunks| - 1]) + chunks[|chunks| - 1]
  }
}
