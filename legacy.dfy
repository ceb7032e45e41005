/** The earlier squelch of squelch.c: the same gate, with a linear fade,
    strict and asymmetric threshold tests, a silence counter that loud
    samples do not reset while the gate is open, and unsigned 32-bit
    counters. Each round it transforms the whole buffer into a separate
    output buffer. */
module LegacySquelch {
  import opened Signal

  /** 2^32: the modulus of C's `unsigned int`. */
  const Modulus := 0x1_0000_0000

  /** Wrap-around of an `unsigned int` result. */
  function Wrap(x: int): (r: nat)
    ensures r < Modulus
    ensures 0 <= x < Modulus ==> r == x
  {
    x % Modulus
  }

  /** The configuration: `buflen`, `duration` and `ttime` are unsigned,
      `limit` is a signed `int`. The fade is modelled for `ttime > 0` only. */
  datatype Config = Config(buflen: nat, limit: int, duration: nat, ttime: nat)

  predicate Supported(c: Config)
  {
    c.buflen < Modulus && c.duration < Modulus && 0 < c.ttime < Modulus
  }

  /** The loop state of squelch.c's main, kept across rounds. */
  datatype State = State(
    silenceCount: nat,
    silent: bool,
    falling: bool,
    rising: bool,
    bellow: nat)

  function Init(c: Config): State
  {
    State(0, false, false, false, c.ttime)
  }

  /** An invariant that holds in every state the loop reaches from `Init`
      and that every step preserves; as in the later engine, the
      flag of the other branch (rising while silent, falling while open) is
      stale and never read. */
  predicate Inv(c: Config, st: State)
  {
    Supported(c) &&
    if st.silent then
      st.silenceCount == c.duration + 1 &&
      if st.falling then 1 <= st.bellow <= c.ttime else st.bellow == 0
    else
      st.silenceCount <= c.duration &&
      if st.rising then st.bellow < c.ttime else st.bellow == c.ttime
  }

  /** One buffer position through the loop body. */
  function Step(c: Config, st: State, s: int): (r: (State, Out))
    // open and not rising: the sample is copied through
    ensures !st.silent && !st.rising ==> r.1 == Pass
    // silent and not falling: exact zero
    ensures st.silent && !st.falling ==> r.1 == Zero
    // otherwise the sample is scaled at the ramp position before the sample
    ensures (st.silent && st.falling) || (!st.silent && st.rising) ==> r.1 == Scaled(st.bellow)
    // the count moves only on quiet samples while open, and is reset only by the return from silence
    ensures !st.silent ==> r.0.silenceCount == (if Abs(s) < c.limit then Wrap(st.silenceCount + 1) else st.silenceCount)
    ensures st.silent ==> r.0.silenceCount == (if Abs(s) > c.limit then 0 else st.silenceCount)
    // a sample exactly at the limit neither ends silence nor counts toward it
    ensures Abs(s) == c.limit ==> r.0.silent == st.silent && r.0.silenceCount == st.silenceCount
    // only a sample strictly above the limit ends silence, and it always starts a rise
    ensures st.silent ==> (r.0.silent <==> Abs(s) <= c.limit)
    ensures st.silent && !r.0.silent ==> r.0.rising
    // silence starts, with a fall, once the count exceeds the duration; the sample's own output is not muted
    ensures !st.silent && r.0.silent ==>
      r.0.falling && r.0.silenceCount > c.duration && r.1 != Zero && Abs(s) < c.limit
  {
    if st.silent then
      var out := if st.falling then Scaled(st.bellow) else Zero;
      var faded :=
        if st.falling then st.(bellow := Wrap(st.bellow - 1), falling := Wrap(st.bellow - 1) != 0)
        else st;
      if Abs(s) > c.limit then
        (faded.(silent := false, rising := true, silenceCount := 0), out)
      else
        (faded, out)
    else
      var out := if st.rising then Scaled(st.bellow) else Pass;
      var faded :=
        if st.rising then st.(bellow := Wrap(st.bellow + 1), rising := Wrap(st.bellow + 1) != c.ttime)
        else st;
      if Abs(s) < c.limit then
        var count := Wrap(st.silenceCount + 1);
        if count > c.duration then
          (faded.(silenceCount := count, silent := true, falling := true), out)
        else
          (faded.(silenceCount := count), out)
      else
        (faded, out)
  }

  /** A run of buffer positions through the loop body, left to right. */
  function Run(c: Config, st: State, xs: seq<int>): (r: (State, seq<Out>))
    ensures |r.1| == |xs|
    ensures Inv(c, st) ==> Inv(c, r.0)
    // bellow stays within 0..ttime: falling stops at 0 and rising at ttime
    ensures Inv(c, st) ==> forall k :: 0 <= k < |xs| && r.1[k].Scaled? ==>
      0 <= r.1[k].index <= c.ttime
    decreases |xs|
  {
    if xs == [] then (st, [])
    else
      var first := Step(c, st, xs[0]);
      var rest := Run(c, first.0, xs[1..]);
      (rest.0, [first.1] + rest.1)
  }

  function Output(c: Config, gain: Gain, st: State, xs: seq<int>): (ys: seq<int>)
    ensures |ys| == |xs|
  {
    Render(gain, c.ttime, xs, Run(c, st, xs).1)
  }

  lemma {:induction false} RunAppend(c: Config, st: State, xs: seq<int>, ys: seq<int>)
    decreases |xs|
    ensures Run(c, st, xs + ys)
         == (Run(c, Run(c, st, xs).0, ys).0, Run(c, st, xs).1 + Run(c, Run(c, st, xs).0, ys).1)
  {
    if xs == [] {
      assert xs + ys == ys;
      assert [] + Run(c, st, ys).1 == Run(c, st, ys).1;
    } else {
      assert (xs + ys)[0] == xs[0];
      assert (xs + ys)[1..] == xs[1..] + ys;
      var first := Step(c, st, xs[0]);
      RunAppend(c, first.0, xs[1..], ys);
      var mid := Run(c, first.0, xs[1..]);
      assert [first.1] + (mid.1 + Run(c, mid.0, ys).1) == ([first.1] + mid.1) + Run(c, mid.0, ys).1;
    }
  }

  lemma OutputAppend(c: Config, gain: Gain, st: State, xs: seq<int>, ys: seq<int>)
    ensures Output(c, gain, st, xs + ys)
         == Output(c, gain, st, xs) + Output(c, gain, Run(c, st, xs).0, ys)
  {
    RunAppend(c, st, xs, ys);
    RenderAppend(gain, c.ttime, xs, ys, Run(c, st, xs).1, Run(c, Run(c, st, xs).0, ys).1);
  }

  /** The number of samples strictly below the limit in `xs`, wherever they
      are. */
  function QuietCount(c: Config, xs: seq<int>): nat
  {
    if xs == [] then 0
    else QuietCount(c, xs[..|xs| - 1]) + (if Abs(xs[|xs| - 1]) < c.limit then 1 else 0)
  }

  /** While the gate is open the counter adds up every quiet sample, however
      many loud samples lie between them; while it stays at or below the
      duration the gate stays open, and without a rise every sample is
      copied through. */
  lemma {:induction false} OpenCountsQuietSamples(c: Config, st: State, xs: seq<int>)
    requires Inv(c, st) && !st.silent
    requires st.silenceCount + QuietCount(c, xs) <= c.duration
    decreases |xs|
    ensures !Run(c, st, xs).0.silent
    ensures Run(c, st, xs).0.silenceCount == st.silenceCount + QuietCount(c, xs)
    ensures !st.rising ==> Run(c, st, xs).0 == st.(silenceCount := st.silenceCount + QuietCount(c, xs))
    ensures !st.rising ==> forall k :: 0 <= k < |xs| ==> Run(c, st, xs).1[k] == Pass
  {
    if xs != [] {
      var front, x := xs[..|xs| - 1], xs[|xs| - 1];
      assert xs == front + [x];
      OpenCountsQuietSamples(c, st, front);
      RunAppend(c, st, front, [x]);
    }
  }

  /** Scattered quiet samples close the gate: the quiet sample that brings
      their total past the duration declares silence. */
  lemma ScatteredQuietDeclaresSilence(c: Config, st: State, xs: seq<int>, x: int)
    requires Inv(c, st) && !st.silent
    requires Abs(x) < c.limit
    requires c.duration + 1 < Modulus
    requires st.silenceCount + QuietCount(c, xs) == c.duration
    ensures Run(c, st, xs + [x]).0.silent
    ensures Run(c, st, xs + [x]).0.falling
  {
    OpenCountsQuietSamples(c, st, xs);
    RunAppend(c, st, xs, [x]);
  }

  /** Once silent and not falling, samples up to the limit come out as exact
      zeros and change nothing. */
  lemma {:induction false} MutedIsZero(c: Config, st: State, xs: seq<int>)
    requires Inv(c, st) && st.silent && !st.falling
    requires forall k :: 0 <= k < |xs| ==> Abs(xs[k]) <= c.limit
    decreases |xs|
    ensures Run(c, st, xs).0 == st
    ensures forall k :: 0 <= k < |xs| ==> Run(c, st, xs).1[k] == Zero
  {
    if xs != [] {
      MutedIsZero(c, st, xs[1..]);
    }
  }

  /** A fall walks `bellow` down one position per sample and stops at 0. */
  lemma {:induction false} FallRamp(c: Config, st: State, xs: seq<int>)
    requires Inv(c, st) && st.silent && st.falling
    requires forall k :: 0 <= k < |xs| ==> Abs(xs[k]) <= c.limit
    requires |xs| <= st.bellow
    decreases |xs|
    ensures forall k :: 0 <= k < |xs| ==> Run(c, st, xs).1[k] == Scaled(st.bellow - k)
    ensures Run(c, st, xs).0.silent
    ensures Run(c, st, xs).0.bellow == st.bellow - |xs|
    ensures Run(c, st, xs).0.falling <==> |xs| < st.bellow
  {
    if xs != [] {
      var next := Step(c, st, xs[0]).0;
      if next.falling {
        FallRamp(c, next, xs[1..]);
      } else {
        MutedIsZero(c, next, xs[1..]);
      }
    }
  }

  /** A rise walks `bellow` up one position per sample, loud or quiet, as
      long as the gate stays open, and stops at `ttime`. */
  lemma {:induction false} RiseRamp(c: Config, st: State, xs: seq<int>)
    requires Inv(c, st) && !st.silent && st.rising
    requires st.silenceCount + QuietCount(c, xs) <= c.duration
    requires |xs| <= c.ttime - st.bellow
    decreases |xs|
    ensures forall k :: 0 <= k < |xs| ==> Run(c, st, xs).1[k] == Scaled(st.bellow + k)
    ensures !Run(c, st, xs).0.silent
    ensures Run(c, st, xs).0.bellow == st.bellow + |xs|
    ensures Run(c, st, xs).0.rising <==> st.bellow + |xs| < c.ttime
  {
    if xs != [] {
      var front, x := xs[..|xs| - 1], xs[|xs| - 1];
      assert xs == front + [x];
      RiseRamp(c, st, front);
      OpenCountsQuietSamples(c, st, xs);
      RunAppend(c, st, front, [x]);
    }
  }

  /** The pcm buffer after the given reads: each read overwrites a prefix
      and leaves the rest of the previous contents in place. */
  function Pcm(stale: seq<int>, chunks: seq<seq<int>>): (p: seq<int>)
    ensures |p| == |stale|
    ensures chunks != [] && |chunks[|chunks| - 1]| <= |stale| ==>
      p[..|chunks[|chunks| - 1]|] == chunks[|chunks| - 1]
  {
    if chunks == [] then stale
    else
      var last, prev := chunks[|chunks| - 1], Pcm(stale, chunks[..|chunks| - 1]);
      // a read never delivers more than the buffer holds
      var n := if |last| <= |prev| then |last| else |prev|;
      last[..n] + prev[n..]
  }

  /** What each round hands to the loop body: the whole pcm buffer. */
  function Rounds(stale: seq<int>, chunks: seq<seq<int>>): (rs: seq<seq<int>>)
    ensures |rs| == |chunks|
    ensures forall r :: 0 <= r < |rs| ==> |rs[r]| == |stale|
  {
    if chunks == [] then []
    else Rounds(stale, chunks[..|chunks| - 1]) + [Pcm(stale, chunks)]
  }

  /** Every round hands exactly `buflen` samples to the loop, whatever was
      read, so the output is `buflen` samples per round. */
  lemma {:induction false} RoundsLength(stale: seq<int>, chunks: seq<seq<int>>)
    decreases |chunks|
    ensures |Flatten(Rounds(stale, chunks))| == |chunks| * |stale|
  {
    if chunks != [] {
      var front := chunks[..|chunks| - 1];
      RoundsLength(stale, front);
      var rs := Rounds(stale, chunks);
      assert rs[..|rs| - 1] == Rounds(stale, front);
      assert |Flatten(rs)| == |front| * |stale| + |stale|;
      assert (|front| + 1) * |stale| == |front| * |stale| + |stale|;
    }
  }

  /** One more read adds one more round: the refilled pcm buffer. */
  lemma RoundsSnoc(stale: seq<int>, front: seq<seq<int>>, chunk: seq<int>)
    requires |chunk| <= |stale|
    ensures Pcm(stale, front + [chunk]) == chunk + Pcm(stale, front)[|chunk|..]
    ensures Flatten(Rounds(stale, front + [chunk]))
         == Flatten(Rounds(stale, front)) + Pcm(stale, front + [chunk])
  {
    var chunks := front + [chunk];
    assert chunks[..|chunks| - 1] == front;
    var rs := Rounds(stale, chunks);
    assert rs[..|rs| - 1] == Rounds(stale, front);
  }

  /** A read into the pcm buffer: the chunk overwrites a prefix. */
  method Fill(pcm: array<int>, chunk: seq<int>)
    requires |chunk| <= pcm.Length
    modifies pcm
    ensures pcm[..] == chunk + old(pcm[..])[|chunk|..]
  {
    forall k | 0 <= k < |chunk| {
      pcm[k] := chunk[k];
    }
  }

  /** A short read after a full one: the tail of the round repeats the
      previous round's samples, and all of it is processed and written. */
  lemma StaleTailExample(a: int, b: int, x: int)
    ensures Rounds([0, 0], [[a, b], [x]]) == [[a, b], [x, b]]
    ensures |Flatten(Rounds([0, 0], [[a, b], [x]]))| == 4
  {
    assert [[a, b], [x]][..1] == [[a, b]];
    assert [[a, b]][..0] == [];
    assert Pcm([0, 0], [[a, b]]) == [a, b];
    assert Pcm([0, 0], [[a, b], [x]]) == [x, b];
    RoundsLength([0, 0], [[a, b], [x]]);
  }

  /** The loop state, kept across rounds, and one round's transform from the
      pcm buffer into the output buffer. */
  class Engine {
    const config: Config
    const gain: Gain
    var silenceCount: nat
    var silent: bool
    var falling: bool
    var rising: bool
    var bellow: nat

    function Current(): State
      reads this
    {
      State(silenceCount, silent, falling, rising, bellow)
    }

    ghost predicate Valid()
      reads this
    {
      Inv(config, Current())
    }

    constructor (config: Config, gain: Gain)
      requires Supported(config)
      ensures this.config == config && this.gain == gain
      ensures Current() == Init(config) && Valid()
    {
      this.config := config;
      this.gain := gain;
      silenceCount := 0;
      silent := false;
      falling := false;
      rising := false;
      bellow := config.ttime;
    }

    /** One buffer position: updates the state and returns the output sample. */
    method Next(sample: int) returns (y: int)
      requires Valid()
      modifies this
      ensures Valid()
      ensures Current() == Step(config, old(Current()), sample).0
      ensures y == Emit(gain, config.ttime, Step(config, old(Current()), sample).1, sample)
    {
      var ttime := config.ttime;
      y := sample;
      if silent {
        if falling {
          y := gain(sample, bellow, ttime);
          bellow := Wrap(bellow - 1);
          if bellow == 0 {
            falling := false;
          }
        } else {
          y := 0;
        }
        if Abs(sample) > config.limit {
          silent := false;
          rising := true;
          silenceCount := 0;
        }
      } else {
        if rising {
          y := gain(sample, bellow, ttime);
          bellow := Wrap(bellow + 1);
          if bellow == ttime {
            rising := false;
          }
        }
        if Abs(sample) < config.limit {
          silenceCount := Wrap(silenceCount + 1);
          if silenceCount > config.duration {
            silent := true;
            falling := true;
          }
        }
      }
    }

    /** One round: every position of `pcm` goes through the loop body, and
        every position of `outbuf` is written. */
    method Transform(pcm: array<int>, outbuf: array<int>)
      requires Valid() && pcm != outbuf && pcm.Length == outbuf.Length
      modifies this, outbuf
      ensures Valid()
      ensures Current() == Run(config, old(Current()), pcm[..]).0
      ensures outbuf[..] == Output(config, gain, old(Current()), pcm[..])
    {
      ghost var start := Current();
      var i := 0;
      while i < pcm.Length
        invariant 0 <= i <= pcm.Length
        invariant Valid()
        invariant Current() == Run(config, start, pcm[..i]).0
        invariant outbuf[..i] == Output(config, gain, start, pcm[..i])
      {
        var sample := pcm[i];
        assert pcm[..i + 1] == pcm[..i] + [sample];
        OutputAppend(config, gain, start, pcm[..i], [sample]);
        RunAppend(config, start, pcm[..i], [sample]);
        outbuf[i] := Next(sample);
        i := i + 1;
      }
      assert pcm[..] == pcm[..pcm.Length];
      assert outbuf[..] == outbuf[..outbuf.Length];
    }
  }

  /** One round of squelch.c's loop: read into `pcm`, transform all of it
      into `outbuf`, and return what is written. */
  method Round(engine: Engine, pcm: array<int>, outbuf: array<int>, chunk: seq<int>)
    returns (out: seq<int>)
    requires engine.Valid() && pcm != outbuf && pcm.Length == outbuf.Length
    requires |chunk| <= pcm.Length
    modifies engine, pcm, outbuf
    ensures engine.Valid()
    ensures pcm[..] == chunk + old(pcm[..])[|chunk|..]
    ensures engine.Current() == Run(engine.config, old(engine.Current()), pcm[..]).0
    ensures out == Output(engine.config, engine.gain, old(engine.Current()), pcm[..])
  {
    Fill(pcm, chunk);
    engine.Transform(pcm, outbuf);
    out := outbuf[..];
  }

  /** The bookkeeping of one round of `Stream`: the refilled buffer is the
      next round, and transforming it continues the run so far. */
  lemma NextRound(c: Config, gain: Gain, stale: seq<int>, chunks: seq<seq<int>>, r: nat,
                  input: seq<int>, filled: seq<int>)
    requires r < |chunks| && |chunks[r]| <= |stale|
    requires input == Flatten(Rounds(stale, chunks[..r]))
    requires filled == chunks[r] + Pcm(stale, chunks[..r])[|chunks[r]|..]
    ensures filled == Pcm(stale, chunks[..r + 1])
    ensures input + filled == Flatten(Rounds(stale, chunks[..r + 1]))
    ensures Run(c, Init(c), input + filled).0 == Run(c, Run(c, Init(c), input).0, filled).0
    ensures Output(c, gain, Init(c), input + filled)
         == Output(c, gain, Init(c), input) + Output(c, gain, Run(c, Init(c), input).0, filled)
  {
    assert chunks[..r + 1] == chunks[..r] + [chunks[r]];
    RoundsSnoc(stale, chunks[..r], chunks[r]);
    OutputAppend(c, gain, Init(c), input, filled);
    RunAppend(c, Init(c), input, filled);
  }

  /** The read/transform/write loop of squelch.c. `stale` is what the pcm
      buffer holds before the first read and `chunks` the successive
      non-empty reads. Every round processes and writes all `buflen`
      positions, including those a short read did not refill. */
  method Stream(config: Config, gain: Gain, stale: seq<int>, chunks: seq<seq<int>>)
    returns (written: seq<int>)
    requires Supported(config) && |stale| == config.buflen
    requires forall r :: 0 <= r < |chunks| ==> 0 < |chunks[r]| <= config.buflen
    ensures written == Output(config, gain, Init(config), Flatten(Rounds(stale, chunks)))
    ensures |written| == |chunks| * config.buflen
  {
    var engine := new Engine(config, gain);
    var pcm := new int[config.buflen];
    var outbuf := new int[config.buflen];
    Fill(pcm, stale);
    written := [];
    ghost var input: seq<int> := [];
    var r := 0;
    while r < |chunks|
      invariant 0 <= r <= |chunks|
      invariant engine.config == config && engine.gain == gain && engine.Valid()
      invariant pcm[..] == Pcm(stale, chunks[..r])
      invariant input == Flatten(Rounds(stale, chunks[..r]))
      invariant engine.Current() == Run(config, Init(config), input).0
      invariant written == Output(config, gain, Init(config), input)
    {
      var out := Round(engine, pcm, outbuf, chunks[r]);
      ghost var filled := pcm[..];
      NextRound(config, gain, stale, chunks, r, input, filled);
      input := input + filled;
      written := written + out;
      r := r + 1;
    }
    assert chunks[..|chunks|] == chunks;
    assert |written| == |Flatten(Rounds(stale, chunks))|;
    RoundsLength(stale, chunks);
  }
}
