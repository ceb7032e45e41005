/** The squelch engine of src/squelch.cc: option validation, the per-sample
    gate-and-fade state machine, the engine object that transforms a read
    buffer in place, and the read/transform/write loop around it. */
module Squelch {
  import opened Signal

  /** Largest value of the 16-bit signed sample type. */
  const SampleMax := 32767

  /** Command-line configuration; all four fields are C `int`s. */
  datatype Options = Options(
    bufferLength: int,
    amplitudeLimit: int,
    minSilenceDuration: int,
    transitionTime: int)

  /** The reasons option validation refuses a configuration. */
  datatype OptionsError =
    | InvalidBufferLength
    | InvalidAmplitudeLimit
    | InvalidFadeTime
    | InvalidSilenceDuration

  datatype Checked = Ok(options: Options) | Err(error: OptionsError)

  /** The constraints an accepted configuration satisfies. */
  predicate Acceptable(o: Options)
  {
    o.bufferLength > 0 &&
    1 <= o.amplitudeLimit <= SampleMax &&
    o.transitionTime >= 0 &&
    o.minSilenceDuration > 0
  }

  /** Option validation: the checks run in order and the first that fails
      decides the error. */
  function Validate(o: Options): (r: Checked)
    ensures r.Ok? <==> Acceptable(o)
    ensures r.Ok? ==> r.options == o
    ensures r == Err(InvalidBufferLength) <==> o.bufferLength <= 0
    ensures r == Err(InvalidAmplitudeLimit) ==>
      o.bufferLength > 0 && (o.amplitudeLimit <= 0 || o.amplitudeLimit > SampleMax)
    ensures r == Err(InvalidFadeTime) ==>
      o.bufferLength > 0 && 1 <= o.amplitudeLimit <= SampleMax && o.transitionTime < 0
    ensures r == Err(InvalidSilenceDuration) ==>
      o.bufferLength > 0 && 1 <= o.amplitudeLimit <= SampleMax && o.transitionTime >= 0 &&
      o.minSilenceDuration <= 0
  {
    if o.bufferLength <= 0 then Err(InvalidBufferLength)
    else if o.amplitudeLimit <= 0 || o.amplitudeLimit > SampleMax then Err(InvalidAmplitudeLimit)
    else if o.transitionTime < 0 then Err(InvalidFadeTime)
    else if o.minSilenceDuration <= 0 then Err(InvalidSilenceDuration)
    else Ok(o)
  }

  /** The configuration used when no option is given. */
  function Defaults(): (o: Options)
    ensures Validate(o) == Ok(o)
    ensures o.transitionTime > 0 && o.amplitudeLimit < SampleMax
  {
    Options(2048, 1024, 4096, 512)
  }

  /** The engine's state, all of which outlives a single read:
      `silent` is is_input_staying_silent, `fadingOut` and `fadingIn` are
      is_output_fading_out and is_output_fading_in. */
  datatype State = State(
    silenceCount: int,
    silent: bool,
    fadingOut: bool,
    fadingIn: bool,
    fader: int)

  function Init(o: Options): State
  {
    State(0, false, false, false, o.transitionTime)
  }

  /** A sample at or above the amplitude limit. */
  predicate Loud(o: Options, s: int)
  {
    Abs(s) >= o.amplitudeLimit
  }

  predicate FadeEnabled(o: Options)
  {
    o.transitionTime > 0
  }

  /** An invariant that holds in every state the engine reaches from `Init`
      and that every step preserves (it also admits some states no input
      reaches). A flag that does not
      belong to the current branch (fadingIn while silent, fadingOut while
      open) is stale: the engine never reads it there and never clears it. */
  predicate Inv(o: Options, st: State)
  {
    var T := o.transitionTime;
    var D := o.minSilenceDuration;
    T >= 0 && D >= 0 && st.silenceCount >= 0 &&
    if st.silent then
      st.silenceCount == D + 1 &&
      if st.fadingOut then 1 <= st.fader <= T else st.fader == 0
    else
      st.silenceCount <= D &&
      if st.fadingIn then 0 <= st.fader < T else st.fader == T
  }

  /** One sample through the engine: the state after it, and what happens to
      the sample. In both branches the sample's output is decided from the
      state before the sample; only then does the sample move the detector. */
  function Step(o: Options, st: State, s: int): (r: (State, Out))
    // the output is the input exactly when open and not fading in
    ensures r.1 == Pass <==> !st.silent && !st.fadingIn
    // silent and not fading out: hard zero
    ensures r.1 == Zero <==> st.silent && !st.fadingOut
    // a scaled sample uses the fader position before the sample
    ensures r.1.Scaled? ==> r.1.index == st.fader
    // attack is immediate: a loud sample ends silence and clears the count
    ensures Loud(o, s) ==> !r.0.silent && r.0.silenceCount == 0
    // a loud sample that ends silence starts a fade-in only when fading is on, and its own output is not passed
    ensures st.silent && Loud(o, s) ==> r.0.fadingIn == FadeEnabled(o) && r.1 != Pass
    // while silent the fader moves only by the fade-out step; ending silence does not reset it
    ensures st.silent ==> r.0.fader == st.fader - (if st.fadingOut then 1 else 0)
    // an open quiet sample counts, and silence begins once the count exceeds the duration
    ensures !st.silent && !Loud(o, s) ==>
      r.0.silenceCount == st.silenceCount + 1 &&
      (r.0.silent <==> st.silenceCount + 1 > o.minSilenceDuration)
    // entering silence keeps the fader where it is and fades out only when fading is on
    ensures !st.silent && r.0.silent ==>
      r.0.fadingOut == FadeEnabled(o) && r.0.fader == st.fader + (if st.fadingIn then 1 else 0)
    // a quiet sample while silent changes neither the gate nor the count
    ensures st.silent && !Loud(o, s) ==> r.0.silent && r.0.silenceCount == st.silenceCount
  {
    if st.silent then
      var out := if st.fadingOut then Scaled(st.fader) else Zero;
      var faded :=
        if st.fadingOut then st.(fader := st.fader - 1, fadingOut := st.fader - 1 != 0) else st;
      if Loud(o, s) then
        (faded.(silent := false, fadingIn := FadeEnabled(o), silenceCount := 0), out)
      else
        (faded, out)
    else
      var out := if st.fadingIn then Scaled(st.fader) else Pass;
      var faded :=
        if st.fadingIn then
          st.(fader := st.fader + 1, fadingIn := st.fader + 1 != o.transitionTime)
        else st;
      if Loud(o, s) then
        (faded.(silenceCount := 0), out)
      else
        var counted := faded.(silenceCount := faded.silenceCount + 1);
        if counted.silenceCount > o.minSilenceDuration then
          (counted.(silent := true, fadingOut := FadeEnabled(o)), out)
        else
          (counted, out)
  }

  /** A run of samples through the engine, left to right. */
  function Run(o: Options, st: State, xs: seq<int>): (r: (State, seq<Out>))
    ensures |r.1| == |xs|
    ensures Inv(o, st) ==> Inv(o, r.0)
    // the fader never leaves 0..transition_time, and nothing is scaled when fading is off
    ensures Inv(o, st) ==> forall k :: 0 <= k < |xs| && r.1[k].Scaled? ==>
      FadeEnabled(o) && 0 <= r.1[k].index <= o.transitionTime
    decreases |xs|
  {
    if xs == [] then (st, [])
    else
      var first := Step(o, st, xs[0]);
      var rest := Run(o, first.0, xs[1..]);
      (rest.0, [first.1] + rest.1)
  }

  /** The output samples for a run of input samples. */
  function Output(o: Options, gain: Gain, st: State, xs: seq<int>): (ys: seq<int>)
    ensures |ys| == |xs|
  {
    Render(gain, o.transitionTime, xs, Run(o, st, xs).1)
  }

  /** Running two pieces one after the other is running their concatenation:
      no state is lost or re-derived at a piece boundary. */
  lemma {:induction false} RunAppend(o: Options, st: State, xs: seq<int>, ys: seq<int>)
    decreases |xs|
    ensures Run(o, st, xs + ys)
         == (Run(o, Run(o, st, xs).0, ys).0, Run(o, st, xs).1 + Run(o, Run(o, st, xs).0, ys).1)
  {
    if xs == [] {
      assert xs + ys == ys;
      assert [] + Run(o, st, ys).1 == Run(o, st, ys).1;
    } else {
      assert (xs + ys)[0] == xs[0];
      assert (xs + ys)[1..] == xs[1..] + ys;
      var first := Step(o, st, xs[0]);
      RunAppend(o, first.0, xs[1..], ys);
      var mid := Run(o, first.0, xs[1..]);
      assert [first.1] + (mid.1 + Run(o, mid.0, ys).1) == ([first.1] + mid.1) + Run(o, mid.0, ys).1;
    }
  }

  /** Chunk invariance at the level of output samples. */
  lemma OutputAppend(o: Options, gain: Gain, st: State, xs: seq<int>, ys: seq<int>)
    ensures Output(o, gain, st, xs + ys)
         == Output(o, gain, st, xs) + Output(o, gain, Run(o, st, xs).0, ys)
  {
    RunAppend(o, st, xs, ys);
    RenderAppend(gain, o.transitionTime, xs, ys, Run(o, st, xs).1, Run(o, Run(o, st, xs).0, ys).1);
  }

  /** One more sample is one more `Step` after the run so far. */
  lemma RunSnoc(o: Options, gain: Gain, st: State, xs: seq<int>, x: int)
    ensures Run(o, st, xs + [x]).0 == Step(o, Run(o, st, xs).0, x).0
    ensures Output(o, gain, st, xs + [x])
         == Output(o, gain, st, xs) + [Emit(gain, o.transitionTime, Step(o, Run(o, st, xs).0, x).1, x)]
  {
    OutputAppend(o, gain, st, xs, [x]);
    RunAppend(o, st, xs, [x]);
    var mid := Run(o, st, xs).0;
    var last := Step(o, mid, x);
    assert [x][0] == x && [x][1..] == [];
    assert Run(o, last.0, []) == (last.0, []);
    assert [last.1] + [] == [last.1];
    assert Run(o, mid, [x]) == (last.0, [last.1]);
  }

  /** From the initial state, a stream of loud samples comes out unchanged,
      and the engine never leaves its initial state. */
  lemma {:induction false} LoudPassthrough(o: Options, gain: Gain, xs: seq<int>)
    requires forall k :: 0 <= k < |xs| ==> Loud(o, xs[k])
    ensures Run(o, Init(o), xs).0 == Init(o)
    ensures forall k :: 0 <= k < |xs| ==> Run(o, Init(o), xs).1[k] == Pass
    ensures Output(o, gain, Init(o), xs) == xs
  {
    if xs != [] {
      LoudPassthrough(o, gain, xs[1..]);
    }
  }

  /** The number of below-limit samples at the end of `xs`, back to the last
      loud sample. */
  function TrailingQuiet(o: Options, xs: seq<int>): nat
  {
    if xs == [] || Loud(o, xs[|xs| - 1]) then 0 else TrailingQuiet(o, xs[..|xs| - 1]) + 1
  }

  /** While the gate is open, the silence count is exactly the length of the
      current run of below-limit samples. */
  lemma {:induction false} OpenCountIsQuietRun(o: Options, xs: seq<int>)
    requires Acceptable(o)
    requires !Run(o, Init(o), xs).0.silent
    ensures Run(o, Init(o), xs).0.silenceCount == TrailingQuiet(o, xs)
  {
    if xs != [] {
      var front, x := xs[..|xs| - 1], xs[|xs| - 1];
      assert xs == front + [x];
      RunAppend(o, Init(o), front, [x]);
      if !Loud(o, x) {
        OpenCountIsQuietRun(o, front);
      }
    }
  }

  /** Silence is declared only by a below-limit sample that completes a run
      of more than `minSilenceDuration` consecutive below-limit samples. */
  lemma SilenceNeedsQuietRun(o: Options, xs: seq<int>, x: int)
    requires Acceptable(o)
    requires !Run(o, Init(o), xs).0.silent
    requires Run(o, Init(o), xs + [x]).0.silent
    ensures TrailingQuiet(o, xs + [x]) == o.minSilenceDuration + 1
  {
    RunAppend(o, Init(o), xs, [x]);
    OpenCountIsQuietRun(o, xs);
    assert (xs + [x])[..|xs|] == xs;
  }

  /** Below-limit samples that do not exceed the duration keep the gate open,
      count up, and pass through untouched unless a fade-in is running. */
  lemma {:induction false} QuietRunStaysOpen(o: Options, st: State, xs: seq<int>)
    decreases |xs|
    requires Inv(o, st) && !st.silent
    requires forall k :: 0 <= k < |xs| ==> !Loud(o, xs[k])
    requires st.silenceCount + |xs| <= o.minSilenceDuration
    ensures !Run(o, st, xs).0.silent
    ensures Run(o, st, xs).0.silenceCount == st.silenceCount + |xs|
    ensures !st.fadingIn ==> Run(o, st, xs).0 == st.(silenceCount := st.silenceCount + |xs|)
    ensures !st.fadingIn ==> forall k :: 0 <= k < |xs| ==> Run(o, st, xs).1[k] == Pass
  {
    if xs != [] {
      QuietRunStaysOpen(o, Step(o, st, xs[0]).0, xs[1..]);
    }
  }

  /** The below-limit sample that pushes the count past the duration closes
      the gate, but its own output is still decided by the open branch. */
  lemma QuietRunDeclaresSilence(o: Options, st: State, xs: seq<int>)
    requires Inv(o, st) && !st.silent
    requires forall k :: 0 <= k < |xs| ==> !Loud(o, xs[k])
    requires st.silenceCount + |xs| == o.minSilenceDuration + 1
    ensures Run(o, st, xs).0.silent
    ensures Run(o, st, xs).1[|xs| - 1] != Zero
    ensures !st.fadingIn ==> forall k :: 0 <= k < |xs| ==> Run(o, st, xs).1[k] == Pass
  {
    var front, x := xs[..|xs| - 1], xs[|xs| - 1];
    assert xs == front + [x];
    QuietRunStaysOpen(o, st, front);
    RunAppend(o, st, front, [x]);
  }

  /** Once muted and no longer fading out, below-limit samples come out as
      exact zeros and leave the state as it is. */
  lemma {:induction false} MutedIsZero(o: Options, st: State, xs: seq<int>)
    decreases |xs|
    requires Inv(o, st) && st.silent && !st.fadingOut
    requires forall k :: 0 <= k < |xs| ==> !Loud(o, xs[k])
    ensures Run(o, st, xs).0 == st
    ensures forall k :: 0 <= k < |xs| ==> Run(o, st, xs).1[k] == Zero
  {
    if xs != [] {
      MutedIsZero(o, st, xs[1..]);
    }
  }

  /** A fade-out walks the fader down one position per sample from wherever
      it started, and stops at 0. */
  lemma {:induction false} FadeOutRamp(o: Options, st: State, xs: seq<int>)
    decreases |xs|
    requires Inv(o, st) && st.silent && st.fadingOut
    requires forall k :: 0 <= k < |xs| ==> !Loud(o, xs[k])
    requires |xs| <= st.fader
    ensures forall k :: 0 <= k < |xs| ==> Run(o, st, xs).1[k] == Scaled(st.fader - k)
    ensures Run(o, st, xs).0.silent
    ensures Run(o, st, xs).0.fader == st.fader - |xs|
    ensures Run(o, st, xs).0.fadingOut <==> |xs| < st.fader
  {
    if xs != [] {
      var next := Step(o, st, xs[0]).0;
      if next.fadingOut {
        FadeOutRamp(o, next, xs[1..]);
      } else {
        MutedIsZero(o, next, xs[1..]);
      }
    }
  }

  /** A fade-in walks the fader up one position per sample from wherever it
      started, loud samples and quiet ones alike, as long as the gate stays
      open, and stops at the transition time. */
  lemma {:induction false} FadeInRamp(o: Options, st: State, xs: seq<int>)
    decreases |xs|
    requires Inv(o, st) && !st.silent && st.fadingIn
    requires st.silenceCount + |xs| <= o.minSilenceDuration
    requires |xs| <= o.transitionTime - st.fader
    ensures forall k :: 0 <= k < |xs| ==> Run(o, st, xs).1[k] == Scaled(st.fader + k)
    ensures !Run(o, st, xs).0.silent
    ensures Run(o, st, xs).0.fader == st.fader + |xs|
    ensures Run(o, st, xs).0.fadingIn <==> st.fader + |xs| < o.transitionTime
  {
    if xs != [] {
      var next := Step(o, st, xs[0]).0;
      assert next.silenceCount <= st.silenceCount + 1;
      if next.fadingIn {
        FadeInRamp(o, next, xs[1..]);
      }
    }
  }

  /** Loud samples while open and not fading pass through untouched. */
  lemma {:induction false} LoudStaysOpen(o: Options, st: State, xs: seq<int>)
    decreases |xs|
    requires Inv(o, st) && !st.silent && !st.fadingIn
    requires forall k :: 0 <= k < |xs| ==> Loud(o, xs[k])
    ensures Run(o, st, xs).0 == st.(silenceCount := if xs == [] then st.silenceCount else 0)
    ensures forall k :: 0 <= k < |xs| ==> Run(o, st, xs).1[k] == Pass
  {
    if xs != [] {
      LoudStaysOpen(o, Step(o, st, xs[0]).0, xs[1..]);
    }
  }

  /** With fading off, every output sample is the input sample or exact zero. */
  lemma NoFadeIsBinary(o: Options, gain: Gain, st: State, xs: seq<int>)
    requires Inv(o, st) && o.transitionTime == 0
    ensures forall k :: 0 <= k < |xs| ==>
      Output(o, gain, st, xs)[k] == xs[k] || Output(o, gain, st, xs)[k] == 0
  {
  }

  /** With fading off, neither fade flag is ever raised. */
  lemma {:induction false} NoFadeFlagsStayClear(o: Options, st: State, xs: seq<int>)
    requires o.transitionTime == 0 && !st.fadingIn && !st.fadingOut
    decreases |xs|
    ensures !Run(o, st, xs).0.fadingIn && !Run(o, st, xs).0.fadingOut
  {
    if xs != [] {
      NoFadeFlagsStayClear(o, Step(o, st, xs[0]).0, xs[1..]);
    }
  }

  /** Limit 1024, duration 3, no fade: the fourth quiet sample passes because
      the gate closes after it, and the returning loud sample is zeroed
      because the gate reopens only after it. */
  lemma WorkedExample(gain: Gain)
    ensures Output(Options(2048, 1024, 3, 0), gain, Init(Options(2048, 1024, 3, 0)),
                   [2000, 500, 500, 500, 500, 2000])
         == [2000, 500, 500, 500, 500, 0]
  {
    var o := Options(2048, 1024, 3, 0);
    var xs := [2000, 500, 500, 500, 500, 2000];
    var s0 := Init(o);
    var s1 := Step(o, s0, 2000).0;
    var s2 := Step(o, s1, 500).0;
    var s3 := Step(o, s2, 500).0;
    var s4 := Step(o, s3, 500).0;
    var s5 := Step(o, s4, 500).0;
    assert s4 == State(3, false, false, false, 0);
    assert s5 == State(4, true, false, false, 0);
    assert xs[1..][1..][1..][1..][1..] == [2000];
    assert Run(o, s0, xs).1 == [Pass, Pass, Pass, Pass, Pass, Zero];
  }

  /** The engine: the state of src/squelch.cc's main, kept across reads, and
      the per-read in-place transform. */
  class Engine {
    const options: Options
    const gain: Gain
    var silenceCount: int
    var silent: bool
    var fadingOut: bool
    var fadingIn: bool
    var fader: int

    function Current(): State
      reads this
    {
      State(silenceCount, silent, fadingOut, fadingIn, fader)
    }

    ghost predicate Valid()
      reads this
    {
      Acceptable(options) && Inv(options, Current())
    }

    constructor (options: Options, gain: Gain)
      requires Acceptable(options)
      ensures this.options == options && this.gain == gain
      ensures Current() == Init(options) && Valid()
    {
      this.options := options;
      this.gain := gain;
      silenceCount := 0;
      silent := false;
      fadingOut := false;
      fadingIn := false;
      fader := options.transitionTime;
    }

    /** Takes one sample through the engine and returns what is written in
        its place. */
    method Next(sample: int) returns (y: int)
      requires Valid()
      modifies this
      ensures Valid()
      ensures Current() == Step(options, old(Current()), sample).0
      ensures y == Emit(gain, options.transitionTime, Step(options, old(Current()), sample).1, sample)
    {
      var T := options.transitionTime;
      var loud := Abs(sample) >= options.amplitudeLimit;
      y := sample;
      if silent {
        if fadingOut {
          y := gain(sample, fader, T);
          fader := fader - 1;
          if fader == 0 {
            fadingOut := false;
          }
        } else {
          y := 0;
        }
        if loud {
          silent := false;
          fadingIn := T > 0;
          silenceCount := 0;
        }
      } else {
        if fadingIn {
          y := gain(sample, fader, T);
          fader := fader + 1;
          if fader == T {
            fadingIn := false;
          }
        }
        if loud {
          silenceCount := 0;
        } else {
          silenceCount := silenceCount + 1;
          if silenceCount > options.minSilenceDuration {
            silent := true;
            fadingOut := T > 0;
          }
        }
      }
    }

    /** Transforms the first `n` samples of `buffer` in place, left to right,
        and leaves the rest of the buffer alone. */
    method Transform(buffer: array<int>, n: nat)
      requires Valid() && n <= buffer.Length
      modifies this, buffer
      ensures Valid()
      ensures Current() == Run(options, old(Current()), old(buffer[..n])).0
      ensures buffer[..n] == Output(options, gain, old(Current()), old(buffer[..n]))
      ensures buffer[n..] == old(buffer[n..])
    {
      ghost var start := Current();
      ghost var input := buffer[..n];
      var i := 0;
      while i < n
        invariant 0 <= i <= n
        invariant Valid()
        invariant Current() == Run(options, start, input[..i]).0
        invariant buffer[..i] == Output(options, gain, start, input[..i])
        invariant forall k :: i <= k < buffer.Length ==> buffer[k] == old(buffer[k])
      {
        var sample := buffer[i];
        assert input[..i + 1] == input[..i] + [sample];
        RunSnoc(options, gain, start, input[..i], sample);
        buffer[i] := Next(sample);
        i := i + 1;
      }
      assert input[..n] == input;
    }
  }

  /** A read into the buffer: the chunk lands at its start. */
  method Load(buffer: array<int>, chunk: seq<int>)
    requires |chunk| <= buffer.Length
    modifies buffer
    ensures buffer[..|chunk|] == chunk
  {
    forall k | 0 <= k < |chunk| {
      buffer[k] := chunk[k];
    }
  }

  /** The read/transform/write loop. `chunks` are the successive non-empty
      reads of the input, each at most a buffer long; the result is what is
      written. Each read is transformed in the one buffer by the one engine,
      so the stream comes out as if it had been transformed whole. */
  method Stream(options: Options, gain: Gain, chunks: seq<seq<int>>) returns (written: seq<int>)
    requires Acceptable(options)
    requires forall r :: 0 <= r < |chunks| ==> 0 < |chunks[r]| <= options.bufferLength
    ensures written == Output(options, gain, Init(options), Flatten(chunks))
  {
    var engine := new Engine(options, gain);
    var buffer := new int[options.bufferLength];
    written := [];
    var r := 0;
    while r < |chunks|
      invariant 0 <= r <= |chunks|
      invariant engine.options == options && engine.gain == gain && engine.Valid()
      invariant engine.Current() == Run(options, Init(options), Flatten(chunks[..r])).0
      invariant written == Output(options, gain, Init(options), Flatten(chunks[..r]))
    {
      var chunk := chunks[r];
      Load(buffer, chunk);
      engine.Transform(buffer, |chunk|);
      written := written + buffer[..|chunk|];
      assert chunks[..r + 1][..r] == chunks[..r];
      OutputAppend(options, gain, Init(options), Flatten(chunks[..r]), chunk);
      RunAppend(options, Init(options), Flatten(chunks[..r]), chunk);
      r := r + 1;
    }
    assert chunks[..|chunks|] == chunks;
  }
}
