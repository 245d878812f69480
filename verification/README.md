# Binaural beats player — a Dafny model

The player in `script.js` plays two sine oscillators, one per ear. The
difference between their frequencies is the binaural beat. It has two modes:

- **Sleep mode.** The left channel stays on a 200 Hz carrier. The right channel
  starts at 210 Hz, a 10 Hz alpha-band beat. It is ramped down to 202 Hz (a
  2 Hz delta-band beat), held there, and ramped back to 210 Hz by the end of
  the session. A session of an hour or more uses 30-minute ramps. A shorter
  session ramps down over its first half and up over its second half.
- **Tone mode.** A constant pair of frequencies. The 432 preset plays 432 Hz
  with a 2 Hz beat. Every other state plays 200 Hz with the beat it selects, a
  preset value or a custom value.

Three handlers drive the player. Play replaces the current pair of
oscillators and the master gain. Stop fades the gain to silence and releases
the pair. A volume edit sets the gain directly.

The model has five modules:

- `Automation` (automation.dfy). The timeline of an audio parameter. It holds
  the two scheduling calls the player makes and the semantics the model
  assumes for them, written out as a function (`ValueAt`).
- `SleepMode` (sleep_mode.dfy). The sleep schedule as issued (`Events`), the
  resulting right-channel curve (`RightFreqAt`), and an independent
  phase-by-phase reference curve (`Envelope`), with the lemmas that connect
  them.
- `ToneMode` (tone_mode.dfy). The tone-mode carrier and beat selection.
- `AudioNodes` (audio_nodes.dfy). Stand-ins for the audio engine's oscillator
  and gain nodes. They record what is created, started, stopped and scheduled.
- `Player` (player.dfy). The three module-level references (`leftOsc`,
  `rightOsc`, `masterGain`) become the fields of the class `Session`, with
  `Play`, `Stop` and `SetVolume` as methods.

Assumed engine semantics. The audio library is not part of this model. For
`linearRampTo(value, rampTime, startTime)`, the model takes the library's usual
meaning: a linear move from the value held at `startTime` to `value` at
`startTime + rampTime`. For `setValueAtTime(value, time)`, the value is held
from `time` on. A later call overrides earlier ones from its own start time.
A ramp of length zero is a step.

Times. Every call in one play handler takes the same audio-clock reading
`now`. `SleepMode` states the schedule relative to that reading.
`Automation.ValueShifted` carries the results over to the absolute times
the handler issues.

Facts about the code that shape the model:

- The left carrier is fixed at 200 Hz. Only the right channel, and so the
  beat, varies over a sleep session.
- Both ramps of a sleep session last `min(1800, totalTime/2)` seconds, so they
  never overlap.
- The code does not guard against a zero-length ramp. The model treats such a
  ramp as a step.
- Tone mode plays exactly one selected beat.
- A volume edit writes `gain.value`. The model takes this as the library's
  cancel-and-set: the level is the new value from the time of the write on,
  and the level before it is kept. This is a `SetValueAtTime` event at that
  time.

## Model

| member | source | states |
|---|---|---|
| `SleepMode.Events` | script.js:59-73 | The right channel gets exactly three calls. First, a ramp from time 0 to 202 Hz. Then a hold at 202 Hz where the second ramp begins. Last, a ramp to 210 Hz that ends exactly at `totalTime`. Both ramps have the same length: 1800 s when `totalTime >= 3600`, otherwise half the session. For any non-negative `totalTime` the calls are in time order and do not overlap. |
| `SleepMode.RightFreqIsEnvelope` | script.js:48-73 | The right channel, created at 210 Hz and given the issued calls, equals the reference envelope at every instant: 210 Hz before and after the session, a linear fall, a hold at 202 Hz, a linear rise. |
| `SleepMode.SleepShape` | script.js:59-73 | On closed intervals, with ramp length `min(1800, totalTime/2)`: a linear fall from 210 Hz over `[0, ramp]`, 202 Hz over `[ramp, totalTime-ramp]`, and a linear rise reaching 210 Hz at `totalTime`. |
| `SleepMode.LongSession` | script.js:60-66 | For `totalTime >= 3600`: 210→202 Hz linearly over `[0, 1800]`, 202 Hz until `totalTime-1800`, then linearly back to exactly 210 Hz at `totalTime`. |
| `SleepMode.ShortSession` | script.js:67-72 | For `0 < totalTime < 3600`: 210→202 Hz over `[0, totalTime/2]` and 202→210 Hz over `[totalTime/2, totalTime]`. There is no hold, and the value at the midpoint is 202 Hz. |
| `SleepMode.StartsAndEndsInAlpha` | script.js:48 | For every `totalTime >= 0`, the right channel is at 210 Hz at and before the session start, and at and after its end. |
| `SleepMode.BeatWithinBand` | script.js:43-48 | For every session length and instant: the left channel is at the 200 Hz carrier, and the beat (right minus left) lies in `[2, 10]`. |
| `SleepMode.FallIsStrict` | script.js:63 | Over the first ramp the right channel falls strictly. |
| `SleepMode.RiseIsStrict` | script.js:66 | Over the last ramp the right channel rises strictly. |
| `ToneMode.Select` | script.js:76-90 | State 432 gives carrier 432 Hz and beat 2 Hz. Every other state gives carrier 200 Hz, with the right channel at carrier plus the selected beat. The right channel is above the left exactly when the beat is positive. |
| `Player.GainOf` | script.js:30 | The gain is the slider's percentage as a fraction: `g * 100 == slider`. It lies in `[0, 1]` exactly when the slider lies in `[0, 100]`. |
| `Player.ScheduleSleepCycle` | script.js:59-73 | The calls issued on the right oscillator are the sleep schedule moved to the clock reading `now`. The oscillator's initial frequency and its running state are unchanged. |
| `Player.PlayedChannels` | script.js:41-99 | Once a session starts at `now`, the left channel stays at its initial frequency. In sleep mode the right channel follows the sleep curve from `now` on, and the beat stays in `[2, 10]`. In tone mode the beat equals the selected beat at every instant. |
| `Player.Session.constructor` | script.js:11 | At page load there are no oscillators and no master gain. |
| `Player.Session.Play` | script.js:27-100 | Any sounding pair is stopped first. Play then creates a new master gain at the slider's level and a new started pair: left at the mode's carrier with nothing scheduled, right at its initial frequency with the mode's schedule moved to `now`. At every instant the left oscillator's frequency is its carrier; in sleep mode the right one follows the sleep curve started at `now`; in tone mode the beat is the selected one. |
| `Player.Session.Stop` | script.js:104-114 | With nothing playing, nothing changes. Otherwise the gain gets a 2 s ramp to 0, so it is silent from `now + 2` on. Both old oscillators are stopped, and both references end up null. |
| `AudioNodes.Gain.SetValue` | script.js:120 | Writing a level at clock time `now` gives that level at every time from `now` on and leaves the level at every earlier time unchanged. The level the gain was created with is kept. |
| `Player.Session.SetVolume` | script.js:117-122 | With a master gain, the level is `slider/100` at every time from the write on, overriding a fade still scheduled, and the level before the write is unchanged. Without a master gain, nothing changes. The oscillators are never touched. |
| `Automation.ValueWithin` | script.js:63-72 | A parameter stays in any band that contains its initial value and every scheduled target, because ramps only interpolate. |
| `Automation.ValueShifted` | script.js:63-72 | Issuing every call `d` seconds later moves the whole frequency curve `d` seconds later. |
| `Automation.RampReaches` | script.js:106 | A ramp's target is held from the end of the ramp on. |

## Left out

- Creating, connecting and starting the audio graph is not modelled: `Tone.start()`, the panners, and connecting nodes to the output. The oscillator and gain stand-ins only record the value a node is created with, the calls on its timeline, and started/stopped.
- The internals of the audio library's `linearRampTo`, `setValueAtTime` and `rampTo` are not modelled. Their meaning is the stated assumption in `Automation`. The gain's `rampTo(0, 2)` is taken as a linear ramp.
- `AudioNodes.Gain.SetValue`: a direct write of `gain.value` is modelled as the library's cancel-and-set at the clock reading `now` of the write. A ramp that is under way at `now` is cut at `now`; the model does not capture any further detail of how the library cancels it.
- `Player.Session.Stop`: the two-second `setTimeout` is modelled as completing at once, so the fade and the teardown form one step. Not modelled: a second stop during the fade (its timer would act on references that are already null), and a play during the fade (the pending timer would stop and release the new pair).
- The model does not parse form text. `parseInt`, `parseFloat` and their NaN results happen before the model: the session length arrives as whole minutes and the tone state as a number. Lookups of DOM elements and the show/hide listeners for the option panels are UI.
- Frequencies, times and gains are reals, not floating-point numbers.
- `Player.Session.Play`: awaiting the audio context's start is not modelled. The handler is treated as running in one step with a single clock reading `now`.
- Negative session lengths are not modelled. `SleepMode.RightFreqIsEnvelope`, `SleepShape`, `ShortSession`, `FallIsStrict` and `RiseIsStrict` need `totalTime > 0`, and `StartsAndEndsInAlpha` needs `totalTime >= 0`. The form only produces such lengths from a non-positive number of minutes. `Events`, `RightFreqAt` and `BeatWithinBand` are still defined for every length.
