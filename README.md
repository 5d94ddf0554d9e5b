# Drum machine sequencer: a Dafny model

This project models the core of a browser drum machine, which has two parts.

The first part is the `DrumKit` object: a 16-step sequencer with six voices (kick, snare, hi-hat and three toms).
- Each voice has a pattern row of levels 0, 1 and 2.
- The `schedule` lookahead loop runs each time the timer worker posts "schedule". It plays every step whose note time is less than 0.120 s past the current audio-clock time.
- For each step, it hands one note per sounding voice to the audio engine and moves the LED playhead at most once per note time.
- `advanceNote` moves to the next step and adds a swung sixteenth.
- `start` and `stop` arm and disarm the timer worker.
- `playDrumNote` plays a single pad hit.

The second part is the `IntensityTracker` object, which keeps a rolling window of the last ten intensity readings and their maximum.

Modules:
- `Instruments` holds the voices, the beat (`BEAT_RESET`), the `VOLUMES` table and the per-voice gain, send and pan tables. It also holds the note record (`NoteEvent`) that a `playNote` call produces, and `StepNotes`, the notes of one step.
- `Swing` models the arithmetic of `advanceNote`: index wrap-around and the parity-based swing.
- `Lookahead` is a functional specification of one `schedule` pass (`Step`, `Run`). It proves the pass's properties: the time window, time order, the playhead sequence, and that successive passes do not overlap.
- `Worker` models the timer worker script as a class. Its state is the worker's `timeoutID` and the set of timeouts the host has armed.
- `Kit` holds the `DrumKit` class. Its methods update the fields in place, as the code does. The audio engine is an append-only `notes` sequence, the LED images are an append-only `leds` sequence, and `context.currentTime` is a parameter. `Schedule` is the `while` loop, proved to produce exactly what `Run` specifies.
- `Intensity` holds the `IntensityTracker` class and the window and sorting functions its `draw` uses.

Times, gains and rates are exact reals. For example, a full loop lasts exactly `16 * 0.25 * 60 / tempo` seconds, whatever the swing.

Details of the code that the model keeps as written:
- Swing is decided by the parity of the step index after the increment.
- `start` resets neither `rhythmIndex` nor `lastDrawTime`.
- A voice whose sample has not been loaded is not skipped: the note record names the buffer key regardless.
- Scheduled snare and tom notes are scaled by 0.6, and hi-hat notes by 0.7.
- `drawPlayHead` switches off LED 14, not 15, when it lights LED 0.
- After `append(x)` with a wrapper, `records` holds the last `min(9, n)` old readings followed by `x`. That is ten readings at most, counting `x`.

## Model

| member | source | states |
|---|---|---|
| Instruments.BeatResetWellFormed | src/DrumKit.ts:14-38 | The default beat has tempo 60, swing factor in [0, 1], six 16-step rows, and every pitch value 0.5. |
| Instruments.DrumNoteIsAccentedStep | src/DrumKit.ts:271-297 | A pad hit is the accented (level 2) scheduled note of its voice at time 0, except that the reverb send is the beat's effect mix; for the kick the send is 0.5, so the two notes are identical. Its dry gain is the voice factor (1, 0.7 or 0.6). |
| Instruments.HiHatSweep | src/DrumKit.ts:157-158 | The hi-hat's pan x position `0.5*i - 4` rises strictly with the step, by 0.5 per step, and stays within [-4, 3.5]. |
| Instruments.StepNotesUnrolled | src/DrumKit.ts:146-172 | The notes of a step are the six optional notes of Kick, Snare, HiHat, Tom1, Tom2 and Tom3, concatenated in that order. |
| Instruments.NotesForExact | src/DrumKit.ts:146-172 | Each note emitted for a list of voices is the table-driven note of a listed voice at the step time. A voice sounds if and only if it is listed and its level is non-zero. |
| Instruments.NotesForOrdered | src/DrumKit.ts:146-172 | Notes follow the order in which the voices are visited, so no voice sounds twice in a step. |
| Instruments.StepNotesSpec | src/DrumKit.ts:146-172 | In one step, a voice sounds if and only if its level there is non-zero. Voices sound once each, from Kick to Tom3. Every note starts at the step's device time. The dry gain is `VOLUMES[level]` × the voice factor × the dry mix; the send is 0.5 for the kick and 1 otherwise; only the hi-hat is panned. |
| Instruments.DefaultBeatScenario | src/DrumKit.ts:32-40 | With the default beat, step 0 plays an unpanned kick with dry gain 1.0, send 0.5 and rate 0.5 first, and step 2 plays no kick. |
| Swing.SecondsPerBeat | src/DrumKit.ts:198 | The seconds per beat, 60 / tempo, is positive. |
| Swing.NextIndex | src/DrumKit.ts:200-203 | The next step is `(i + 1) mod 16`, and it is 0 exactly when `i` is 15. |
| Swing.MinDelta | src/DrumKit.ts:206-210 | The shorter (even-step) duration is at least 0.17 beats, so it is positive. |
| Swing.SwingDelta | src/DrumKit.ts:206-210 | Every step duration is at least the even-step duration, so it is positive. |
| Swing.Advance | src/DrumKit.ts:196-211 | One advance strictly increases the note time and moves the step to `(i + 1) mod 16`. |
| Swing.SwingBounds | src/DrumKit.ts:206-210 | A step to an odd index is at least a straight sixteenth (`0.25*spb`), and a step to an even index at most. A step is exactly straight if and only if the swing factor is 0. |
| Swing.TwoSteps | src/DrumKit.ts:196-211 | Any two consecutive advances move two steps and last exactly one eighth note (`0.5*spb`), whatever the swing. |
| Swing.AdvanceNIndex | src/DrumKit.ts:200-203 | `n` advances move the step to `(i + n) mod 16`. |
| Swing.EvenSteps | src/DrumKit.ts:205-210 | `2k` advances last exactly `k` eighth notes. |
| Swing.FullLoops | src/DrumKit.ts:196-211 | `16k` advances return the step to where it started and last exactly `k * 16 * 0.25 * 60 / tempo` seconds. |
| Lookahead.PreviousLed | src/DrumKit.ts:185 | The LED switched off is `x - 1` for `x > 0`, and 14 (never 15) for `x = 0`. |
| Lookahead.Step | src/DrumKit.ts:142-181 | One loop iteration strictly increases the note time, by at least the shortest step. |
| Lookahead.StepsLeftDecreases | src/DrumKit.ts:142 | While the loop condition holds, the measure `floor((limit - noteTime) / minDelta)` is non-negative and strictly decreases with each iteration, so the loop terminates. |
| Lookahead.Run | src/DrumKit.ts:135-182 | A pass ends with the note time at or past the horizon, never moving it back. A pass that starts at or past the horizon does nothing. |
| Lookahead.RunNotesInWindow | src/DrumKit.ts:140-144 | Every note of a pass starts in [cursor time + startTime, horizon + startTime). The notes are in time order. |
| Lookahead.StepNotesTimes | src/DrumKit.ts:144-172 | Every note of a step starts at `noteTime + startTime`. |
| Lookahead.RunLedsArePlayHeads | src/DrumKit.ts:174-178 | Every LED update of a pass is a playhead update that switches off the LED `PreviousLed` names for the one it lights. |
| Lookahead.PlayHeadFirst | src/DrumKit.ts:175-177 | A pass whose first note time differs from the last drawn time begins by lighting LED `(i + 15) mod 16`. |
| Lookahead.PlayHeadLast | src/DrumKit.ts:175-180 | The last LED a pass lights is `(i' + 14) mod 16`, where `i'` is the new step. This is the LED that `stop` switches off. |
| Lookahead.PlayHeadMovesByOne | src/DrumKit.ts:174-180 | Within a pass, each playhead update lights the LED after the one lit before it, modulo 16. |
| Lookahead.PassesDoNotOverlap | src/DrumKit.ts:140-142 | A pass continued from where the previous pass stopped plays only notes strictly later than every note of the previous pass. |
| Lookahead.FirstPassPlaysCurrentStep | src/DrumKit.ts:251-253 | The first pass after `start` (note time 0, horizon 0.115 s) always begins with the current step's notes. |
| Worker.TimerWorker.constructor | src/DrumKit.ts:94 | A new worker has no timeout armed. |
| Worker.TimerWorker.ArmTimeout | src/DrumKit.ts:94 | `schedule()` records a fresh timeout id and adds it to the host's armed timeouts. |
| Worker.TimerWorker.OnMessage | src/DrumKit.ts:94 | "start" arms exactly one timeout, and changes nothing if one is already armed. "stop" clears the armed timeout and sets the id to 0. Any other message changes nothing. Exactly one timeout is armed while the worker is armed. |
| Worker.TimerWorker.Fire | src/DrumKit.ts:94 | A firing timeout is replaced by exactly one fresh timeout. |
| Worker.AtMostOneTimer | src/DrumKit.ts:94 | A worker never has more than one timeout armed, and it has one if and only if it is armed. |
| Worker.StartTwice | src/DrumKit.ts:94 | Posting "start" twice leaves a single timeout armed. |
| Kit.DrumKit.constructor | src/DrumKit.ts:42-56 | A new kit has no audio context and no worker, note time 0, last draw time -1, step 0 and the default beat. |
| Kit.DrumKit.Init | src/DrumKit.ts:58-108 | `init` creates the audio graph and a fresh, unarmed worker (the "init" message does nothing), and leaves the cursor unchanged. |
| Kit.DrumKit.PlayNote | src/DrumKit.ts:213-246 | With an audio graph, exactly one note record is appended (panned only when `pan` is set, dry gain `mainGain * effectDryMix`, wet gain `sendGain`). Without one, nothing is appended. |
| Kit.DrumKit.DrawPlayHead | src/DrumKit.ts:184-194 | It appends one playhead update: light `x` and switch off `PreviousLed(x)`. |
| Kit.DrumKit.AdvanceNote | src/DrumKit.ts:196-211 | The in-place update of the step and the note time equals `Swing.Advance`. |
| Kit.DrumKit.PlayIfSounding | src/DrumKit.ts:146-172 | One voice's guarded `playNote`: it appends the note exactly when the voice's level is non-zero. |
| Kit.DrumKit.PlayStep | src/DrumKit.ts:143-172 | The six guarded `playNote` calls append exactly `StepNotes` at `noteTime + startTime`. |
| Kit.DrumKit.ScheduleStep | src/DrumKit.ts:142-181 | One loop iteration updates the cursor and appends notes and LEDs exactly as `Lookahead.Step` specifies. |
| Kit.DrumKit.Schedule | src/DrumKit.ts:135-182 | Without an audio context nothing changes. Otherwise the loop leaves the cursor, the appended notes and the appended LED updates exactly as `Run` with horizon `now - startTime + 0.120`. |
| Kit.DrumKit.Start | src/DrumKit.ts:248-255 | If the kit is initialised, `start` sets the sequence origin 5 ms after `now` and plays the first pass from note time 0, keeping the step and the last draw time. It then arms the worker. Otherwise nothing changes. |
| Kit.DrumKit.Stop | src/DrumKit.ts:257-269 | With a worker, `stop` disarms it, switches off LED `(i + 14) mod 16` and sets the step to 0, keeping the note time. Without one, nothing changes. |
| Kit.DrumKit.PlayDrumNote | src/DrumKit.ts:271-297 | With an audio graph, it appends exactly the pad-hit note of the voice at time 0 (accent volume, pan by the current step). |
| Kit.StepAppends | src/DrumKit.ts:146-172 | The six successive guarded appends, with the argument values the code passes, add up to `StepNotes`. |
| Kit.ScheduleIteration | src/DrumKit.ts:142-181 | The loop invariant survives one iteration, and the termination measure decreases. |
| Intensity.Window | src/IntensityTracker.ts:24 | `slice(-10)` gives a suffix of at most 10 readings; the whole list when there are at most 10, and exactly 10 otherwise. |
| Intensity.Insert | src/IntensityTracker.ts:26-27 | Inserting into an ascending list keeps it ascending and adds exactly that one element. |
| Intensity.SortAscending | src/IntensityTracker.ts:26-27 | The sorted copy is ascending and a permutation of the readings. |
| Intensity.LastIsMax | src/IntensityTracker.ts:26-29 | The last element of the sorted copy is one of the readings, and none is larger. |
| Intensity.WindowAppend | src/IntensityTracker.ts:13-24 | After appending `x` and taking the window, the list is the last `min(9, n)` old readings, in order, followed by `x`. |
| Intensity.WindowIdempotent | src/IntensityTracker.ts:24 | Taking the window twice is the same as taking it once. |
| Intensity.IntensityTracker.constructor | src/IntensityTracker.ts:1-4 | A new tracker has no readings, no wrapper and maximum 0. |
| Intensity.IntensityTracker.Init | src/IntensityTracker.ts:6-11 | `init` installs the wrapper and keeps the readings and the maximum. |
| Intensity.IntensityTracker.Append | src/IntensityTracker.ts:13-17 | `x` becomes the last reading. With a wrapper, the list becomes the last `min(9, n)` old readings plus `x`, at most 10, and `max` is their maximum. Without a wrapper, the list just grows and `max` is unchanged. |
| Intensity.IntensityTracker.Draw | src/IntensityTracker.ts:19-37 | Without a wrapper, or with no readings, nothing changes. Otherwise the readings are cut to the last 10 in their original order, and `max` is one of them and no smaller than any. |

## Left out

- Building the Web Audio graph in `init` (compressor, filter, master and effect gains, convolver) is not modelled: it is a foreign API. The three nullable fields `context`, `masterGainNode` and `convolver` are set together, so they are one flag, `context`.
- Audio nodes are not modelled either. A `playNote` call becomes an appended `NoteEvent` record.
- Sample loading (`loadInstruments`, `loadAudio`) is asynchronous network I/O. The model records the buffer key and never checks whether a sample exists, which matches the code.
- The audio clock `context.currentTime` is a parameter `now`.
- The timer worker's real `setTimeout` and `postMessage` run concurrently with the kit; the model keeps only the worker's arm/disarm state and the set of armed timeouts. When a timeout fires, the host calls `schedule`; the model leaves that call to the caller and does not interleave it with the kit.
- The DOM is not modelled. LED image updates become `LedUpdate` records. The guard that skips an update when an LED element is missing is not modelled, since the model has no DOM. The intensity bars, and their heights `Math.round(item * 100 / max)`, are left out: they are float rounding, with a division by zero when `max` is 0.
- Floating point is not modelled. All times and gains are exact reals, so no rounding error builds up in `noteTime`. The `noteTime != lastDrawTime` test is exact.
- NaN and infinite readings in the intensity tracker are not modelled, because readings are reals. With real readings the ascending order is unique, so the sort is any function that returns it. `SortAscending` is an insertion sort on a sequence, not the engine's in-place sort.
- The beat's parameters are never validated by the code. Tempo > 0, swing factor in [0, 1] and 16-step rows are a precondition (`WellFormed`), and levels are a subtype {0, 1, 2}.
- The `theBeat` field is a constant: nothing in the code reassigns it.
- Kit.DrumKit.PlayIfSounding, Kit.DrumKit.PlayStep and Kit.DrumKit.ScheduleStep split the loop body of `schedule` into methods; the order of operations and every argument value are those of the code.
- The music sheet layout, the MIDI player UI and the application shell are not part of this model.
