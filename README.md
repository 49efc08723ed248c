# FMOD tempo changer: a Dafny model of the tempo/pitch/seek controller

The program is a browser page. It plays an audio file through FMOD and lets
the user change the playback tempo, switch pitch compensation on and off,
and seek. All of its state lives in one object, `AudioEngine`
(`src/main.js`). This project models that object and the click handlers
that drive it, and proves what they do.

- `tempo.dfy`, module `Tempo`: the pure computations inside `setTempo`.
  These are the clamp to [0.5, 2.0], `Math.round(x*100)/100`, the channel
  frequency, the pitch-shift parameter and the `toFixed(2) + "x"` text.
  Tempo values are exact reals, so rounding is `Floor(100x + 1/2) / 100`.
- `fmod.dfy`, module `Fmod`: fake FMOD objects with plain fields.
  - `Sound`: length in ms, looping flag.
  - `Channel`: frequency, position in ms, paused, volume, stopped, DSP chain.
  - `PitchShiftDsp`: float parameter 0 (`pitch`) and int parameter 1 (`fftSize`).
- `page.dfy`, module `Page`: the DOM. A `Document` holds two maps from
  element id to state: one for `disabled` flags, one for text content. An id
  missing from a map is an element missing from the page. Element ids form an
  enumeration with one constructor per DOM id.
- `engine.dfy`, module `Engine`: class `AudioEngine`. Its fields match the
  object's: `currentSound`, `currentChannel`, `pitchShiftDSP`,
  `shiftStatus`, `baseFrequency` and `currentTempo`.
  - `minTempo`/`maxTempo` never change, so they are the constants
    `Tempo.MinTempo`/`Tempo.MaxTempo`.
  - Its methods are `readyUI`, `setTempo`, `shiftFlip`, `seekControl`, the
    synchronous part of `playTrack`, and `_loadAndPlayBuffer`.
  - Its invariant `Valid()` has two parts. The stored tempo is in range and a
    multiple of 0.01. The current channel, if there is one, plays the current
    sound.
- `controls.dfy`, module `Controls`: the handlers registered in the ready
  callback, one method each (src/main.js:146-206).
- `scenarios.dfy`, module `Scenarios`: client traces. They prove the outcome
  of concrete call sequences: 1.25x on a 44100 Hz track, two flips at 0.8x,
  seeking past either end, a tempo above the maximum, a reload with no new
  pitch shifter, and a failed decode. `FlipTwice` states what two flips do on
  any engine with a channel and a shifter, and
  `StaleShifterAfterFailedDecode` shows a run where they do not restore the
  pitch.

A JavaScript `TypeError` from dereferencing a null `currentChannel` is
modelled as the return value `Completion.Threw`. It is not a precondition.
`setTempo` stores the new tempo before it touches the channel, so the model
keeps that partial update.

The model follows the code as written, including where it may surprise:

- The new channel is created paused (`playSound(..., true, ...)`), at volume 0.5.
- A reload stops and drops only the old channel. The old sound is never released.
- The old pitch-shift DSP is never released either. If creating the new one
  fails, `pitchShiftDSP` still points at the old unit, and later `setTempo`
  calls write to it.
- `readyUI(true)` runs even when `createSound` fails. The controls are then
  enabled with no channel, and each tempo, seek or play handler throws.
  `Scenarios.FailedDecodeThenTempo` shows this.
- The large seek step is `0.25 * 100000 = 25000` ms. The comments at
  src/main.js:184,187 say 30 s.
- The pitch parameter is `1/tempo` when `shiftStatus` is false, that is while
  the DSP display reads "On". It is 1.0 when `shiftStatus` is true.

## Model

| member | source | states |
|---|---|---|
| Tempo.Clamp | src/main.js:114-115 | The result lies in [0.5, 2.0]. It equals the argument when that is in range, 0.5 at or below 0.5, and 2.0 at or above 2.0. |
| Tempo.ClampNearest | src/main.js:114-115 | The clamped value is the point of [0.5, 2.0] nearest the requested multiplier. |
| Tempo.RoundHalfUp | src/main.js:117 | `Math.round(x*100)/100` gives a multiple of 0.01 within the half-open window (x - 0.005, x + 0.005]. |
| Tempo.RoundHalfUpUnique | src/main.js:117 | No other multiple of 0.01 lies in that window, so half-up rounding is fully determined by it. |
| Tempo.Quantize | src/main.js:114-118 | The value setTempo stores is always in [0.5, 2.0] and a multiple of 0.01. |
| Tempo.QuantizeFixesTempo | src/main.js:114-118 | Applying setTempo to a stored tempo stores the same value. shiftFlip and the load sequence, which call `setTempo(currentTempo)`, therefore leave the tempo unchanged. |
| Tempo.QuantizeIdempotent | src/main.js:114-118 | Clamping and rounding twice gives the same value as doing it once. |
| Tempo.StepIsExact | src/main.js:117 | A step of whole hundredths from a stored tempo is never rounded: the result is exactly the clamped sum, so repeated steps do not drift. |
| Tempo.ChannelFrequency | src/main.js:120 | The default tempo plays at the base frequency. For a positive base frequency, the channel runs faster than it exactly when the tempo is above 1.0. |
| Tempo.PitchFor | src/main.js:122-125 | The pitch parameter is 1.0 when shiftStatus is set. Otherwise its product with the tempo is 1. |
| Tempo.CompensatedPitchIsNative | src/main.js:120-125 | With compensation on, the channel frequency times the pitch parameter is the base frequency at every tempo, so the heard pitch is the native one. |
| Tempo.PitchExample | src/main.js:123 | Tempo 1.25 gives pitch 0.8 and 0.8 gives 1.25 when shiftStatus is false. Tempo 0.8 gives 1.0 when it is true. |
| Tempo.DecimalRoundTrip | src/main.js:128 | Reading the decimal numeral `toFixed` writes for a natural number gives that number back. |
| Tempo.Fixed2 | src/main.js:128 | `toFixed(2)` of a non-negative multiple of 0.01 is digits, '.', then exactly two digits. Below 10 the integer part is one digit. |
| Tempo.TempoText | src/main.js:128 | The tempo display text is always five characters: digit, '.', digit, digit, 'x'. |
| Tempo.TempoTextRoundTrip | src/main.js:128 | Parsing the display text gives back exactly the stored tempo. |
| Tempo.TempoTextInjective | src/main.js:128 | Two stored tempi with the same display text are equal. |
| Tempo.TempoTextExamples | src/main.js:128 | 1.25 shows as "1.25x", 2.0 as "2.00x" and 0.5 as "0.50x". |
| Page.Show | src/main.js:127-128 | The guarded `if (el) el.textContent = s` writes of src/main.js:28-29, 106-107 and 127-128. When the element exists its text becomes s, and every other element keeps its text. A missing element is left missing. |
| Engine.StatusText | src/main.js:27-30 | The status line reads "Ready to Play." exactly when the flag is true, and "Processing..." exactly when it is false. |
| Engine.ShiftText | src/main.js:106-107 | The DSP display reads "Off" exactly when shiftStatus is set, and "On" exactly when it is not. |
| Engine.ReadyDisabled | src/main.js:14-25 | After readyUI(flag), each of the 11 listed controls on the page has `disabled == !flag`. Every other element keeps its flag, and no element appears or disappears. |
| Engine.SeekTarget | src/main.js:138-140 | The new position lies in [0, length]. It is pos + delta when that is in range, 0 when pos + delta is at or below 0, and the length when it is at or above the length. |
| Engine.SeekTargetExamples | src/main.js:138-140 | Position 3000 with delta -5000 gives 0. 8000 + 5000 on a 10000 ms track gives 10000. 3000 + 5000 gives 8000. |
| Engine.SeekRoundTrip | src/main.js:138-140 | A seek that stays inside the track is undone by the opposite seek. |
| Engine.AudioEngine.constructor | src/main.js:1-12 | Initial state: no sound, channel or DSP, shiftStatus false, base frequency 44100, tempo 1.0. The invariant holds. |
| Engine.AudioEngine.ReadyUI | src/main.js:14-31 | The loop over the 11 ids sets the disabled flags as ReadyDisabled says. The status text, if that element exists, becomes StatusText(flag). |
| Engine.AudioEngine.SetTempo | src/main.js:112-129 | Stores Quantize(m), even when it then throws. With a channel: frequency = baseFrequency × stored tempo, the DSP (if any) gets PitchFor(shiftStatus, tempo), and the display shows TempoText(tempo). With no channel it throws and writes nothing else. All other fields are unchanged. |
| Engine.AudioEngine.ShiftFlip | src/main.js:103-110 | Negates shiftStatus and shows "Off"/"On". The tempo is unchanged. With a channel, the frequency and pitch parameter are re-applied for the new status. |
| Engine.AudioEngine.SeekControl | src/main.js:131-143 | With a channel, the position becomes SeekTarget(pos, delta, length of currentSound), and nothing else changes. With no channel it throws and changes nothing. |
| Engine.AudioEngine.PlayTrack | src/main.js:54-58 | Any existing channel is stopped, and otherwise unchanged. currentChannel becomes null. Sound, DSP, tempo, status and base frequency are kept. |
| Engine.AudioEngine.LoadAndPlayBuffer | src/main.js:65-101 | On decode success: a fresh looping sound and a fresh paused channel at volume 0.5, with baseFrequency the channel's reported rate. A fresh DSP with int parameter 1 = 4096 is added to the channel and the tempo applied, but only when DSP creation succeeds; otherwise the old DSP reference stays. On failure nothing changes. readyUI(true) runs in both cases. Old objects are not touched. |
| Controls.OnEngineReady | src/main.js:152-154 | Enables the file input, throwing if it is missing, then runs readyUI(false). |
| Controls.FileInputStaysEnabled | src/main.js:152-154 | readyUI keeps the file input's flag as it was, so the input enabled just before stays enabled. |
| Controls.SeekStep | src/main.js:177-188 | `change * timeConst` rounded down to whole milliseconds. For a change of whole hundredths it is exact. |
| Controls.SeekStepValues | src/main.js:148-150 | The seek steps are ±5000 ms and ±25000 ms, equal to change × timeConst. |
| Controls.TempoStepExact | src/main.js:192-203 | Each ±0.05 / ±0.25 step from a stored tempo stores exactly the clamped sum. |
| Controls.OnSlow | src/main.js:192-194 | setTempo(currentTempo - 0.05). The stored tempo becomes clamp(tempo - 0.05). |
| Controls.OnFast | src/main.js:195-197 | setTempo(currentTempo + 0.05). The stored tempo becomes clamp(tempo + 0.05). |
| Controls.OnSlowMax | src/main.js:198-200 | setTempo(currentTempo - 0.25). The stored tempo becomes clamp(tempo - 0.25). |
| Controls.OnFastMax | src/main.js:201-203 | setTempo(currentTempo + 0.25). The stored tempo becomes clamp(tempo + 0.25). |
| Controls.OnResetTempo | src/main.js:204-206 | setTempo(1.0). The stored tempo becomes 1.0. |
| Controls.OnRewind | src/main.js:177-179 | seekControl(-5000). |
| Controls.OnForward | src/main.js:180-182 | seekControl(5000). |
| Controls.OnRewindLarge | src/main.js:183-185 | seekControl(-25000). |
| Controls.OnForwardLarge | src/main.js:186-188 | seekControl(25000). |
| Controls.OnPlay | src/main.js:165-170 | Flips the channel's paused flag and nothing else. Throws with no channel. |
| Controls.OnFileChosen | src/main.js:157-163 | When a file is chosen, sets the status to "Loading..." and runs playTrack. The old channel is stopped with all its other fields kept, and currentChannel becomes null. If the status element is missing, it throws before playTrack. With no file, or on that throw, the text and the channel are untouched. In every case the flags, sound, shifter, tempo, shiftStatus and base frequency are kept. |
| Scenarios.LoadedEngine | src/main.js:75-99 | A successful load leaves a paused channel at position 0 with the shifter attached at pitch 1.0, tempo 1.0, all 11 controls enabled and "Ready to Play." shown. |
| Scenarios.SpeedUpLoadedTrack | src/main.js:117-128 | At 44100 Hz, setTempo(1.25) gives frequency 55125, pitch 0.8 and "1.25x". |
| Scenarios.FlipTwiceAtSlowTempo | src/main.js:103-110 | At 0.8x the pitch goes 1.25 → 1.0 → 1.25, and the display shows "Off" then "On". |
| Scenarios.FlipTwice | src/main.js:103-110 | On any engine with a channel and a shifter, two flips restore shiftStatus and the tempo and leave the pitch PitchFor(shiftStatus, tempo). The old pitch comes back exactly when it already was that value. |
| Scenarios.StaleShifterAfterFailedDecode | src/main.js:88-125 | After a load, a failed decode and a Fast click that throws, the shifter still holds 1.0 while 1.05x is stored. A reload without a new shifter keeps it, and two flips then write 1/1.05. |
| Scenarios.RewindPastStart | src/main.js:138-139 | Rewinding 5 s from 3000 ms lands at 0. |
| Scenarios.ForwardPastEnd | src/main.js:140 | Jumping 25 s forward on a 10000 ms track lands at 10000. |
| Scenarios.TempoAboveMaximum | src/main.js:115-128 | setTempo(3.0) stores 2.0 and shows "2.00x". |
| Scenarios.ReloadWithoutShifter | src/main.js:88-96 | A reload with no new DSP keeps the old DSP. setTempo writes 1/1.5 to it, and the new channel has no DSP. |
| Scenarios.FailedDecodeThenTempo | src/main.js:75-99 | After a failed decode all 11 controls are enabled and the status reads "Ready to Play.". The next tempo click stores 1.05 and throws. |

## Left out

- FMOD bring-up (`init`, `_internalSetup`, `resumeContext`, src/main.js:33-52): calls into the native runtime with no logic of their own. The play and file handlers' `resumeContext()` calls are not modelled either.
- The `FileReader` read (src/main.js:60-62) and the virtual filesystem calls (src/main.js:66-69), including the swallowed `FS_unlink` exception. This is I/O. What `createSound` returns for the bytes, the rate the new channel reports and whether `createDSPByType` succeeds are parameters of `LoadAndPlayBuffer`. The asynchronous gap between `playTrack` and `_loadAndPlayBuffer` means two separate methods. Interleavings, such as two files chosen in quick succession, are not explored.
- The `btnDSP` click handler (src/main.js:172-174) has no method of its own: it only calls `shiftFlip`, which `Engine.AudioEngine.ShiftFlip` models.
- DOM lookups, `console.warn`, `console.error` and the event-listener registration. Only the handler bodies are modelled. A missing element is a missing map key. Where the code checks `if (el)`, nothing is written; where it does not check, the handler throws.
- IEEE-754 doubles: `Math.round`, `*`, `/` and `toFixed` are computed on exact reals. Seek steps are exact integers.
- Audio output itself: playback, the pitch shifting, and what FMOD does with a position or frequency it is given.
- FMOD defaults for new objects, assumed from its documentation: channel volume 1.0, pitch-shift parameters 1.0 and 1024.
- Tempo.TempoText: defined only for stored tempi (in range, multiples of 0.01), the only values setTempo formats. It is not `toFixed` on arbitrary numbers.
- Releasing sounds and DSP units: the code never does it, and the model claims no such guarantee.
