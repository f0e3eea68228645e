# sdrplayalsa AGC — a Dafny model

sdrplayalsa streams I/Q samples from an SDRplay receiver to an ALSA sound
device (or standard output). Optionally it runs an automatic gain control
(AGC) loop over the samples and changes the receiver's gain reduction. This
project models that core and proves properties of it:

- **The AGC state machine `agc()`** (`agc_spec.dfy`, `agc.dfy`). `AgcSpec`
  gives the pure specification of one iteration of the sample loop. The
  iteration has three phases: millisecond tick, amplitude tracking and window
  evaluation. `Run` applies the iteration to a block. `Agc.Engine` is the
  class that holds the source's globals as fields. Its `Step`,
  `EvaluateWindow` and `ProcessBlock` methods update them in place, and each
  method is proved equal to the specification. The gain push
  `update_sdrplay_gain_reduction()` appends the written `gRdB` value to a
  ghost log, `pushes`.
- **The I/Q repacking of `rx()`** (`stream.dfy`). The loop interleaves
  `xi`/`xq` into a buffer of `2*numSamples` shorts. The AGC then runs over the
  first `numSamples` entries of that buffer, exactly as the source calls it.
  Those entries are alternately I and Q samples from the first half of the
  block only.
- **Configuration normalisation in `main()`** (`config.dfy`, `session.dfy`).
  This covers the `-g`/`-G`/`-S`/`-s` clamps, applied in command-line order,
  and the sample-rate checks. It also covers the rate → decimation/shift
  table, `fsHz = rate << rateshift`, `agc_timer_scaling = rate / 1000` with
  C's truncating division, and the relative value written to the gain file.
  `Session.Start` ties these to the engine and to the initial gain push.

The model keeps the source's behaviour as written, including these quirks:

- The overload path's guard compares the gain reduction with the amplitude
  threshold `AGC1increaseThreshold`.
- When that guard fails, the quiet path is still excluded.
- The upper clamp fires only above 59, and then sets the gain to
  `max_gain_reduction`. So a gain between the maximum and 59 can be raised
  past the maximum (`RaiseCanExceedMaxGain`).
- The quiet path subtracts `gainstep_dec` after checking only
  `gain > min`, so it can undershoot the minimum (`QuietCanUndershootMinGain`).
- An overload at the ceiling pushes even when the clamp gives back the same
  value (`ClampStillPushes`).
- The timers tick every `rate/1000 + 1` samples, not every `rate/1000`
  (`TickCadence`).

The invariant proved is therefore the band
`minGain - stepDec + 1 <= gain <= 59`. It becomes `minGain <= gain <= 59`
when the decrease step is 1. It is not `minGain <= gain <= maxGain`.

Further facts about the code that the model follows:

- `agc()` calls `update_sdrplay_gain_reduction()` directly and
  synchronously each time a gain path fires. Nothing else gates the push.
- The gain file is written inside that push, not by a separate writer.
- The overload path clamps only above 59 and always pushes, even when the
  clamp gives back the old value.
- The AGC thresholds, window length, overload count and hold times are used
  as given. `main()` checks nothing about them.
- `setopt()` rejects an option argument that is empty or not wholly numeric
  (sdrplayalsa.c:245-248). Its `p < 0` test compares a pointer and never
  fires, so negative numbers pass through to the clamps.
- Before starting, `main()` refuses to run when no device is found
  (sdrplayalsa.c:410-413), when the bandwidth is invalid (415-418), when no
  frequency is given (420-423), when the rate is missing or not one of the
  four accepted rates (425-433), and when a requested serial number matches
  no device (439-442). Only the rate checks are modelled; the others are
  listed under "Left out".

## Model

| member | source | states |
|---|---|---|
| AgcSpec.Abs | sdrplayalsa.c:94-95 | the sample's absolute value, in [0, 32768], computed on int so -32768 does not overflow |
| AgcSpec.Evaluate | sdrplayalsa.c:102-133 | a window is evaluated exactly when `agc_timer >= AGC3minTimeMs`; a push only happens in an evaluated window; otherwise the state is untouched; the sample counter is never touched |
| AgcSpec.Tick | sdrplayalsa.c:85-93 | the three timers advance together by 1 exactly when `counter_samples + 1 > agc_timer_scaling` (otherwise by 0); the counter then restarts at 0 and otherwise counts on, staying <= the scaling; amplitude tracking and gain untouched |
| AgcSpec.Track | sdrplayalsa.c:94-100 | `max_adc` ends >= both the old mark and the new amplitude and equals one of them; `adc_high_count` grows by one exactly for an amplitude above the increase threshold while below 65530, else is unchanged; nothing else changes |
| AgcSpec.Decide | sdrplayalsa.c:105-129 | the overload path is taken exactly when the overload test holds and the gain is below `AGC1increaseThreshold`; the quiet path exactly when the overload test fails and the three quiet conditions hold |
| AgcSpec.RaisedGain | sdrplayalsa.c:109-110 | the raised gain is old + `gainstep_inc` when that is <= 59, and `max_gain_reduction` when it is above 59 |
| AgcSpec.Step | sdrplayalsa.c:84-146 | one iteration ends a window exactly when the ticked `agc_timer` reaches `AGC3minTimeMs`, then leaving `agc_timer` and `max_adc` at 0; a push happens only in such a window, and without a push the gain is unchanged |
| AgcSpec.Run | sdrplayalsa.c:84-146 | a block of n samples pushes at most n times, and with no push leaves the gain unchanged |
| AgcSpec.StepTicks | sdrplayalsa.c:85-93 | the three timers tick together, by exactly 1, exactly when `counter_samples + 1 > agc_timer_scaling`, and the counter then restarts at 0; with no window end nothing else changes them, the gain or the push log |
| AgcSpec.StepTracks | sdrplayalsa.c:97-100 | within a window `max_adc` becomes max(old, abs(sample)) and `adc_high_count` grows by one exactly for a sample above the increase threshold, saturating at 65530 |
| AgcSpec.EvaluationResetsWindow | sdrplayalsa.c:130-132 | after any evaluation, whichever path was taken, `max_adc`, `agc_timer` and `adc_high_count` are 0 |
| AgcSpec.OverloadPath | sdrplayalsa.c:105-114 | overload with gain below `AGC1increaseThreshold`: new gain is old + step, replaced by `max_gain_reduction` if above 59; both event timers reset; a push happens |
| AgcSpec.OverloadGuardBlocks | sdrplayalsa.c:105-116 | overload with gain not below `AGC1increaseThreshold`: gain and event timers unchanged, no push, and the quiet path is not taken |
| AgcSpec.QuietPath | sdrplayalsa.c:116-128 | the quiet path fires exactly when there is no overload, `max_adc < AGC2decreaseThreshold`, `agc_decrease_timer > AGC6C` and gain > min; then gain is exactly old - step, both timers and `adc_high_count` reset and a push happens |
| AgcSpec.OnePathPerWindow | sdrplayalsa.c:105-129 | at most one gain path per evaluation, overload first; a push exactly when a path fires; otherwise the gain and both event timers (`agc_increase_timer`, `agc_decrease_timer`) carry over into the next window |
| AgcSpec.QuietStepOneKeepsFloor | sdrplayalsa.c:120-122 | with `gainstep_dec == 1` the quiet path never goes below `min_gain_reduction` |
| AgcSpec.RaiseKeepsCeiling | sdrplayalsa.c:109-110 | with `max_gain_reduction <= 59` and an old gain <= 59, the overload path leaves the gain <= 59 |
| AgcSpec.RaiseCanExceedMaxGain | sdrplayalsa.c:110 | witness: max 40, gain 40, step 1 gives 41, above the configured maximum |
| AgcSpec.QuietCanUndershootMinGain | sdrplayalsa.c:120-122 | witness: min 30, gain 31, step 2 gives 29, below the configured minimum |
| AgcSpec.ClampStillPushes | sdrplayalsa.c:109-111 | witness: at gain 59 with max 59 the clamp returns 59 and the push still happens |
| AgcSpec.StepKeepsInvariant | sdrplayalsa.c:84-146 | one iteration keeps the counter, timer, high-water, saturated count and gain band invariant |
| AgcSpec.RunKeepsInvariant | sdrplayalsa.c:84-146 | over any block the invariant holds at the end and every pushed gain lies in [min - stepDec + 1, 59] |
| AgcSpec.RunKeepsEventTimersEqual | sdrplayalsa.c:91-92 | `agc_increase_timer` and `agc_decrease_timer`, once equal (they start at 0), stay equal over any block: they tick together (91-92) and are reset together on both paths (112-113, 124-125) |
| AgcSpec.StepOneStaysAboveMin | sdrplayalsa.c:116-128 | with `gainstep_dec == 1`, the final gain and every pushed gain lie in [min, 59] |
| AgcSpec.LastPushIsCurrentGain | sdrplayalsa.c:142-145 | after any block the gain equals the last value pushed (or the initial gain if none was), with at most one push per sample |
| AgcSpec.WindowAccumulators | sdrplayalsa.c:97-132 | after a block, `max_adc` is the peak amplitude since the last window evaluation and `adc_high_count` the saturating count of samples above the increase threshold since then |
| AgcSpec.PeakCoversWindow | sdrplayalsa.c:97 | every sample since the last window evaluation has abs(sample) <= `max_adc` |
| AgcSpec.TickCadence | sdrplayalsa.c:85-93 | while no window ends, counter + samples == ticks * (`agc_timer_scaling` + 1) + new counter, all three timers advance by the tick count, and the gain and push log are unchanged |
| Agc.Engine.constructor | sdrplayalsa.c:30-46 | the AGC globals start at zero with the configured gain reduction, no pushes yet, invariant established |
| Agc.Engine.PushGain | sdrplayalsa.c:54-64 | the current gain reduction is appended to the push log |
| Agc.Engine.Step | sdrplayalsa.c:84-146 | the in-place update of the globals by one sample equals `AgcSpec.Step`, with one push exactly when a gain path fires (the source's `gain_changed` flag, set even when the clamp gives back the old value); keeps the invariant |
| Agc.Engine.EvaluateWindow | sdrplayalsa.c:102-133 | the in-place window evaluation equals `AgcSpec.Evaluate` and reports its gain change |
| Agc.Engine.ProcessBlock | sdrplayalsa.c:80-147 | running `agc()` over the first `numSamples` entries of `buf` leaves the state `Run` specifies and appends exactly its pushes |
| Stream.Interleaved | sdrplayalsa.c:159-164 | the repacked buffer has length 2n with `buf[2i] == xi[i]` and `buf[2i+1] == xq[i]` |
| Stream.InterleavedUnique | sdrplayalsa.c:161-164 | those element equations determine the buffer uniquely |
| Stream.AgcInputOfBlock | sdrplayalsa.c:177-179 | the AGC's k-th input is `xi[k/2]` for even k and `xq[k/2]` for odd k |
| Stream.Rx | sdrplayalsa.c:150-179 | `rx()` fills a fresh buffer equal to `Interleaved`; with AGC enabled the engine runs over its first `numSamples` entries, otherwise the engine is unchanged |
| Config.ClampStep | sdrplayalsa.c:337-347 | the step size ends in [1, 10] and is the value of that range nearest to the request |
| Config.ApplyMinGain | sdrplayalsa.c:299-305 | `-g` sets the minimum to the request when it is in [19, current max], to 19 below that and to the current max above it; copies it into the gain and changes nothing else |
| Config.ApplyMaxGain | sdrplayalsa.c:307-311 | `-G` sets the maximum to the request when it is in [gain, 59], to the gain below that and to 59 above it; changes nothing else |
| Config.ApplyOption | sdrplayalsa.c:299-347 | `-g` gives exactly the `ApplyMinGain` result and `-G` exactly the `ApplyMaxGain` result; `-S`/`-s` store the clamped step; each option changes only the globals it names (`-g` also sets the gain) |
| Config.ApplyOptions | sdrplayalsa.c:268-347 | a global that no option of its kind names keeps its initial value (the order of application is stated by `ApplyOptionsSnoc`) |
| Config.ApplyOptionsSnoc | sdrplayalsa.c:268-347 | the options are applied in command-line order: appending an option applies it to the result of all earlier ones |
| Config.OptionOrderMatters | sdrplayalsa.c:299-311 | witnesses: `-G 40 -g 50` ends with minimum 40 but `-g 50 -G 40` with minimum 50; of `-S 3 -S 5` the later wins |
| Config.ApplyOptionKeepsWellFormed | sdrplayalsa.c:299-347 | each gain option keeps 19 <= min == gain <= max <= 59 and both steps in [1, 10] |
| Config.OptionsWellFormed | sdrplayalsa.c:268-380 | any sequence of gain options, in any order and repeated, keeps that condition |
| Config.CommandLineWellFormed | sdrplayalsa.c:19-50 | from the static defaults, every command line ends in that condition |
| Config.CheckRate | sdrplayalsa.c:425-433 | a rate passes exactly when it is 96000, 192000, 384000 or 768000; a missing (zero) rate is reported as such |
| Config.DecimationFor | sdrplayalsa.c:494-513 | the decimation factor is at least 2 and the shift at least 1; for an accepted rate the factor is exactly 2^shift |
| Config.FsHz | sdrplayalsa.c:515 | `rate << rateshift`, computed one doubling per bit, equals the rate times 2^rateshift |
| Config.AcceptedRateDecimation | sdrplayalsa.c:494-515 | for each accepted rate, decimation == 2^rateshift, `rate << rateshift == 3072000`, and the ADC rate divided by the decimation is the rate |
| Config.TableEntryUnreachable | sdrplayalsa.c:510-513 | the 1536000 row of the table exists but that rate is rejected by the rate check |
| Config.TimerScaling | sdrplayalsa.c:387 | `rate / 1000` truncated toward zero, as C divides |
| Config.AcceptedRateScaling | sdrplayalsa.c:387 | for accepted rates the scaling is exact (scaling * 1000 == rate) and at least 96 |
| Config.RelativeGain | sdrplayalsa.c:74 | the gain-file value is 0 exactly at the minimum and non-negative exactly at or above it |
| Config.PushedRelativeGainInRange | sdrplayalsa.c:72-76 | with `gainstep_dec == 1`, every gain-file value written by a push is in [0, 59 - min] |
| Config.StartupRelativeGainIsZero | sdrplayalsa.c:485-489 | the "0" written to a fresh gain file equals the relative gain of the configured state |
| Config.ConfiguredAgcIsValid | sdrplayalsa.c:382-433 | a command line that passes the rate check yields a configuration and initial state satisfying the AGC invariant |
| Session.Start | sdrplayalsa.c:425-542 | no engine when the rate checks fail; otherwise a fresh valid engine over the configured gain with that gain pushed once |

## Left out

- SDRplay API calls (open, device listing and selection, device parameters, init, update) are foreign library calls and hardware I/O. A push is only an entry in the ghost log. An update's error return is only logged by the source and does not change any state.
- ALSA output and its error recovery (`snd_pcm_*`, -EAGAIN/-EPIPE handling, the four-write priming loop) and the raw `write(1, ...)` are sink I/O.
- Gain-file I/O (`fopen`, `fseek`, `fprintf`, `fflush`) is left out. Only the value written is modelled, by `Config.RelativeGain`.
- `getopt`/`strtol` parsing in `setopt`, `usage()`, and options other than `-g`/`-G`/`-S`/`-s`/`-r` are command-line text handling. The AGC thresholds and times enter `Session.Start` as integers.
- The device-presence, bandwidth and frequency checks and serial-number matching with `strcasestr` (sdrplayalsa.c:410-423, 435-442) depend on the device list and option text, which are not modelled; each only ends the program with an error.
- `setopt()`'s rejection of non-numeric arguments (sdrplayalsa.c:245-248) is text parsing; the model receives already-parsed integers.
- The `pause()` loop is process lifecycle.
- Verbose and debug `fprintf` output, including the `debugPeriod` block, is observational only. `debug_counter_ms` only feeds it, and `counter_ms` is incremented but never read, so both are dropped.
- `rx()` runs on the receiver's callback thread. It is modelled as a sequential call.
- The disabled `#else` decimation branch of `rx()` is compiled out.
- Counters and timers are unbounded integers. In the source they are 32-bit `int`. `agc_increase_timer` and `agc_decrease_timer` are only reset when the gain changes, so after about 2^31 ms (roughly 24.8 days) with no gain change they would overflow. That is signed overflow, undefined in C, and it is not modelled.
- `rate << rateshift` is modelled as multiplication by 2^rateshift. A negative rate, which makes the shift undefined in C, never reaches it because the rate check comes first.
