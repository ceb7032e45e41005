# squelch — a verified model of the gate-and-fade engine

`squelch` reads a raw stream of signed 16-bit PCM samples and writes it back
out. Whenever the signal has stayed below an amplitude limit for long enough,
it replaces the output with exact digital silence. It fades out and back in
over a configurable number of samples so that the gate does not click. The
engine's state survives from one read to the next, so how the input happens
to be split into reads does not change the output.

The project models two versions of the engine:

- `squelch.dfy` (module `Squelch`) models `src/squelch.cc`. It covers option
  validation, the per-sample state machine as a pure `Step`/`Run`, an
  `Engine` class that transforms a read buffer in place, and the
  read/transform/write loop (`Stream`).
- `legacy.dfy` (module `LegacySquelch`) models the earlier `squelch.c`. That
  version has a linear fade, strict and asymmetric threshold tests, a silence
  counter that loud samples do not reset while the gate is open, and unsigned
  32-bit counters. Every round it transforms the whole `buflen`-sample buffer
  into a separate output buffer, whatever was read.
- `signal.dfy` (module `Signal`) holds what both use. `Out` is the
  per-sample decision: `Pass`, `Zero`, or `Scaled(index)` at a ramp
  position. `Gain` is the fade gain, left abstract. `Render` turns decisions
  into output samples.

Each `Step` decides a sample's output from the state *before* that sample,
and only then lets the sample move the detector. This is what the code does,
and it has consequences the model keeps:

- In the open branch, the quiet sample that pushes `silence_count` past
  `min_silence_duration` still passes. The gate closes only after it.
- In the silent branch, the loud sample that reopens the gate is itself zeroed
  or faded.
- Entering silence does not reset `fader`. A fade-out starts from wherever
  the fader stands.

For example, with `transition_time = 0`, limit 1024 and
`min_silence_duration = 3`, the input `[2000, 500, 500, 500, 500, 2000]`
gives `[2000, 500, 500, 500, 500, 0]` (`WorkedExample`): the fourth quiet
sample passes, and the returning loud sample is zeroed.

`Inv` holds in every reachable state and every step preserves it (it also
admits some states that no input reaches). While the gate is open, `fadingIn`
implies `0 <= fader < transition_time`; otherwise `fader == transition_time`,
and `silence_count <= min_silence_duration`. While silent, `fadingOut` implies
`1 <= fader <= transition_time`; otherwise `fader == 0`, and
`silence_count == min_silence_duration + 1`. The flag of the other branch is
never read there and never cleared, so `Inv` says nothing about it. The
legacy engine has the same shape, with `falling`/`rising`/`bellow`.

## Model

| member | source | states |
|---|---|---|
| `Squelch.Validate` | src/squelch.cc:84-103 | accepts exactly the options with `buffer_length > 0`, `1 <= amplitude_limit <= 32767`, `transition_time >= 0` and `min_silence_duration > 0`; accepted options come back unchanged; a refusal names the first failing check, in source order |
| `Squelch.Defaults` | src/squelch.cc:19-24 | the built-in defaults (2048, 1024, 4096, 512) pass validation, with fading on |
| `Squelch.Step` | src/squelch.cc:151-192 | output is the input exactly when open and not fading in, and exact zero exactly when silent and not fading out; a scaled sample uses the fader before the sample; a loud sample ends silence and zeroes the count; a returning sample starts a fade-in only if fading is on, is not passed through, and does not reset the fader; an open quiet sample adds one to the count and closes the gate once the count exceeds the duration; entering silence keeps the fader and fades out only if fading is on |
| `Squelch.Run` | src/squelch.cc:148-193 | one decision per sample; `Inv` holds in every reachable state and every step preserves it; every scaled sample uses a fader position in `0..transition_time`, and none is scaled when `transition_time == 0` |
| `Squelch.RunAppend` | src/squelch.cc:120-136 | running two pieces one after the other equals running their concatenation: final state and decisions agree |
| `Squelch.OutputAppend` | src/squelch.cc:136-194 | the same chunk invariance at the level of output samples |
| `Squelch.LoudPassthrough` | src/squelch.cc:172-185 | from the initial state, if every sample is at or above the limit, the output equals the input and the state never changes |
| `Squelch.OpenCountIsQuietRun` | src/squelch.cc:183-188 | while the gate is open, `silence_count` equals the length of the trailing run of below-limit samples |
| `Squelch.SilenceNeedsQuietRun` | src/squelch.cc:183-191 | a sample that closes the gate completes a run of exactly `min_silence_duration + 1` consecutive below-limit samples |
| `Squelch.QuietRunStaysOpen` | src/squelch.cc:183-191 | up to `min_silence_duration` quiet samples keep the gate open and count up one each; without a fade-in they pass unchanged and nothing else changes |
| `Squelch.QuietRunDeclaresSilence` | src/squelch.cc:172-191 | the quiet sample that pushes the count past the duration closes the gate, but its own output is not zero |
| `Squelch.MutedIsZero` | src/squelch.cc:160-163 | silent and not fading out: below-limit samples come out as exact zeros and the state does not change |
| `Squelch.FadeOutRamp` | src/squelch.cc:154-159 | a fade-out scales at `fader, fader-1, …` one step per sample and stops exactly when the fader reaches 0 |
| `Squelch.FadeInRamp` | src/squelch.cc:173-178 | while the gate stays open (the count cannot pass the duration), a fade-in scales at `fader, fader+1, …` one step per sample, loud or quiet, and stops exactly when the fader reaches `transition_time` |
| `Squelch.LoudStaysOpen` | src/squelch.cc:179-185 | open and not fading: loud samples pass unchanged and only reset the count |
| `Squelch.NoFadeIsBinary` | src/squelch.cc:153-181 | with `transition_time == 0`, every output sample is the input sample or 0 |
| `Squelch.NoFadeFlagsStayClear` | src/squelch.cc:126-191 | with `transition_time == 0`, neither fade flag is ever raised |
| `Squelch.WorkedExample` | src/squelch.cc:148-193 | limit 1024, duration 3, no fade: `[2000,500,500,500,500,2000]` gives `[2000,500,500,500,500,0]` |
| `Squelch.Engine.constructor` | src/squelch.cc:120-132 | a new engine starts with count 0, gate open, no fade running, fader at `transition_time` |
| `Squelch.Engine.Next` | src/squelch.cc:149-192 | one sample updates the fields as `Step` says and returns the sample `Step`'s decision produces |
| `Squelch.Engine.Transform` | src/squelch.cc:147-194 | the first `n` buffer samples are replaced by their output, in place; the rest of the buffer is untouched; the new state is `Run`'s |
| `Squelch.Stream` | src/squelch.cc:134-202 | feeding the reads one by one through one engine and one buffer writes exactly the output of the concatenated input from the initial state |
| `LegacySquelch.Step` | squelch.c:43-80 | open and not rising: the sample passes; silent and not falling: exact zero; otherwise it is scaled at `bellow`; the count grows only on open samples strictly below the limit, wrapping at 2^32; it is reset only by the return from silence; a sample exactly at the limit changes neither gate nor count; only a sample strictly above the limit ends silence, and it always starts a rise; silence starts, with a fall, only on a quiet sample whose count exceeds `duration`, and that sample is not zeroed |
| `LegacySquelch.Run` | squelch.c:34-82 | one decision per position; `Inv` holds in every reachable state and every step preserves it; `bellow` at every scaled sample is within `0..ttime` |
| `LegacySquelch.RunAppend` | squelch.c:19-41 | running two pieces in turn equals running their concatenation |
| `LegacySquelch.OutputAppend` | squelch.c:40-82 | the same at the level of output samples |
| `LegacySquelch.OpenCountsQuietSamples` | squelch.c:61-80 | while open, the counter adds up every quiet sample, whatever loud samples lie between them; the gate stays open while the total is at most `duration`; without a rise every sample passes |
| `LegacySquelch.ScatteredQuietDeclaresSilence` | squelch.c:73-80 | the quiet sample that brings the scattered total past `duration` closes the gate and starts a fall |
| `LegacySquelch.MutedIsZero` | squelch.c:43-59 | silent and not falling: samples up to the limit come out as exact zeros and nothing changes |
| `LegacySquelch.FallRamp` | squelch.c:44-49 | a fall scales at `bellow, bellow-1, …` and stops exactly when `bellow` reaches 0 |
| `LegacySquelch.RiseRamp` | squelch.c:63-68 | while the gate stays open (the quiet total cannot pass `duration`), a rise scales at `bellow, bellow+1, …` one step per sample, loud or quiet, and stops exactly when `bellow` reaches `ttime` |
| `LegacySquelch.Pcm` | squelch.c:36-40 | the pcm buffer keeps its length, and after a read it starts with the chunk just read |
| `LegacySquelch.Rounds` | squelch.c:40-41 | one round per read, each `buflen` samples long |
| `LegacySquelch.RoundsLength` | squelch.c:40-41 | the rounds together hold `buflen` samples per read |
| `LegacySquelch.RoundsSnoc` | squelch.c:40-41 | one more read adds exactly the refilled buffer as one more round |
| `LegacySquelch.StaleTailExample` | squelch.c:40-41 | after a full read `[a, b]`, a one-sample read `[x]` hands `[x, b]` to the loop, so 4 samples are written for 3 read |
| `LegacySquelch.Fill` | squelch.c:40 | a read overwrites the prefix of `pcm` and leaves the rest |
| `LegacySquelch.Engine.constructor` | squelch.c:19-35 | count 0, not silent, neither falling nor rising, `bellow == ttime` |
| `LegacySquelch.Engine.Next` | squelch.c:42-81 | one position updates the fields as `Step` says and returns the sample its decision produces |
| `LegacySquelch.Engine.Transform` | squelch.c:41-82 | every position of `outbuf` is written with the output of the whole `pcm` buffer; the new state is `Run`'s |
| `LegacySquelch.Round` | squelch.c:40-86 | one round: refill a prefix of `pcm`, transform all of it, return all of `outbuf` |
| `LegacySquelch.Stream` | squelch.c:39-88 | the written stream is the output of the concatenated rounds from the initial state, `buflen` samples per read |

## Left out

- Reading and writing: `read`, `write`, `fflush`, end of stream and the I/O
  error exits (src/squelch.cc:136-147 and 196-201; squelch.c:40 and 84-86).
  The reads are a parameter, a sequence of non-empty chunks no longer than
  the buffer, and the written stream is the result.
- Splitting a byte count into samples (src/squelch.cc:147). An odd byte
  count is not modelled. Neither is a read of one byte, which yields zero
  samples and then a zero-length write that the code treats as an error.
  `squelch.c` also treats a failed `read` (-1) as data; that is not modelled.
- Command-line parsing (`getopt_long`, `getopt`, `strtol`, `atoi`, `strtof`),
  the usage message, and the decibel-to-amplitude conversion with `pow`
  (src/squelch.cc:40-82; squelch.c:24-32). All of these are library or
  floating-point code. `Validate` takes the parsed `Options`.
- The conflicting-limit check at src/squelch.cc:88 is dead code:
  `has_absolute_limit` and `has_decibel_limit` are never set
  (src/squelch.cc:46-47). No error case models it.
- The fade gain: `smoothStep`, `scale` and `lround` (src/squelch.cc:29-37),
  and the linear `bellow / ttime` multiply with truncation to `short`
  (squelch.c:45-46, 64-65). Both are floating point. The gain is a function
  parameter `Gain` of the engines, so nothing is proved about the scaled
  values themselves (their shape, monotonicity, or the 16-bit range).
- Samples are unbounded integers. The 16-bit range matters only inside the
  gain, which is abstract.
- `Squelch` fields are unbounded integers. In C++, `silence_count` could
  overflow only with `min_silence_duration == INT_MAX`, which is undefined
  behaviour; the model lets it count on.
- `LegacySquelch` requires `ttime > 0` (`Supported`). With `ttime == 0`, the
  source divides by zero in floating point, and `bellow` wraps instead of
  stopping.
- `LegacySquelch` models the unsigned wrap-around of `silence_count` and
  `bellow` (`Wrap`). One consequence: with `duration == 2^32 - 1` the counter
  wraps to 0 and silence is never declared. So
  `ScatteredQuietDeclaresSilence` requires `duration + 1 < 2^32`.
- `squelch.c`'s `limit` is a signed `int` with no validation. A negative
  limit makes every sample loud; the model allows any integer.
- `squelch.c` initially holds indeterminate stack contents in `pcm`. The
  model takes them as the parameter `stale`.
