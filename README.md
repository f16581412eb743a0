# AutoMind fatigue analyzer in Dafny

A verified model of the driver-fatigue state machine of the AutoMind desktop
demo: the `FatigueAnalyzer` class of `automind.py` and the keyboard branch of
`DemoUI.run` that writes into it.

Each tick of the analyzer (at most one every three seconds) scores the
buffered microphone audio by its mean-square energy, counts a yawn when a
window of at least three seconds is louder than 0.02, records one steering
sample in a 100-entry history, classifies the yawn count into NORMAL, WARNING
or CRITICAL, and clears the count once per ten-minute period. The keyboard
resets the demo, simulates a yawn (debounced to one per two seconds) and
changes the simulation speed within [0.5, 3.0]. Voice alerts are rate-limited
to one per thirty seconds.

Layout:

- `audio_energy.dfy` (module `AudioEnergy`): window size, energy, the yawn test.
- `fatigue_levels.dfy` (module `FatigueLevels`): levels, the classification, the driver-state labels.
- `torque_history.dfy` (module `TorqueHistory`): the bounded steering history (`deque(maxlen=100)`).
- `timing.dfy` (module `Timing`): the time constants and Python's `current_time % 600`.
- `analyzer_spec.dfy` (module `AnalyzerSpec`): the analyzer state as a value, one function per
  operation, and the lemmas stating what each operation guarantees.
- `fatigue_analyzer.dfy` (module `Analyzer`): the class `FatigueAnalyzer`, whose fields are the
  Python object's fields plus the run loop's `last_yawn_sim_time`; each method updates the fields
  step by step as the Python does and is proved to move `State()` as the matching function of
  `AnalyzerSpec` does, and to keep the object invariant `Valid()`.

The clock (`time.time()`), the audio chunks, the steering value and the drawn
driver-state label are parameters. Speech output is the `Announcement` that
`VoiceAlert` returns.

Two behaviours of the code are kept as written:

- The steering branch and its label use the level left by the previous tick;
  the level is recomputed only afterwards (`TickLabelLagsLevel`).
- The ten-minute reset runs after classification, so a tick can end with a zero
  count at level CRITICAL (`ResetLeavesLevel`).

The reset check `current_time % 600 < 3` is sometimes described as able to fire
several times within one period. With the three-second tick limiter it cannot:
two resets at least one tick apart are more than 597 seconds apart
(`ResetsNearlyAPeriodApart`). It can, however, miss a period altogether
(`ResetWindowCanBeMissed`).

## Model

| member | source | states |
|---|---|---|
| AudioEnergy.SumSquares | automind.py:74 | the sum of squared samples is never negative |
| AudioEnergy.MeanSquare | automind.py:74 | the energy of a non-empty buffer is never negative |
| AudioEnergy.SumSquaresAppend | automind.py:47-49 | the energy sum of a buffer built from chunks is the sum over the chunks, so chunking does not change the score |
| AudioEnergy.SteadyToneEnergy | automind.py:74 | a buffer whose samples all have magnitude `a` has energy `a * a` |
| AudioEnergy.SilenceIsNoYawn | automind.py:72-78 | an all-zero buffer has energy 0 and is never heard as a yawn |
| AudioEnergy.SteadyToneHeard | automind.py:72-78 | three seconds or more of a steady tone count as a yawn exactly when its power exceeds 0.02 |
| FatigueLevels.Classify | automind.py:108-114 | CRITICAL exactly from 4 yawns, WARNING exactly at 3, NORMAL exactly up to 2 |
| FatigueLevels.ClassifyMonotone | automind.py:108-114 | more yawns never give a less severe level |
| FatigueLevels.LabelsPartition | automind.py:85-103 | every driver-state label belongs to exactly one level's two-label vocabulary |
| TorqueHistory.Push | automind.py:106 | appending keeps at most 100 entries: the newest 100 of the old history followed by the new value |
| TorqueHistory.PushAll | automind.py:44 | any number of appends leaves at most 100 entries |
| TorqueHistory.PushAllKeepsNewest | automind.py:44 | after any appends the history is exactly the last 100 values appended, in insertion order |
| TorqueHistory.HundredFiftyAppends | automind.py:44 | 150 appends to an empty history leave exactly the last 100 |
| Timing.ResetPhase | automind.py:117 | `t % 600` with Python's flooring semantics lies in [0, 600) |
| Timing.ResetWindow | automind.py:117 | within each ten-minute period the reset is due exactly during its first three seconds |
| Timing.ResetsNearlyAPeriodApart | automind.py:116-118 | two resets at least one tick apart are more than 597 seconds apart |
| Timing.ResetWindowCanBeMissed | automind.py:116-118 | ticks at 599.99 s and 603.01 s are a tick apart and neither resets |
| AnalyzerSpec.AlertRateLimit | automind.py:51-58 | a suppressed alert changes nothing, a spoken one changes only the alert time, and two spoken alerts are at least 30 s apart |
| AnalyzerSpec.TickRateLimit | automind.py:64-68 | a call within 3 s of the last analysis changes no state; any other records its time |
| AnalyzerSpec.TickDrainsFullWindow | automind.py:71-82 | a tick empties a buffer of at least 48000 samples and leaves a shorter one unchanged |
| AnalyzerSpec.TickCountsAtMostOneYawn | automind.py:71-79 | outside the reset window a tick adds 1 yawn exactly when the full buffer is louder than 0.02 and 0 otherwise; never more than 1 |
| AnalyzerSpec.TickClassifies | automind.py:108-118 | after a tick the level is the classification of the count before the reset; the reset clears the count; outside it level and final count agree |
| AnalyzerSpec.ResetLeavesLevel | automind.py:108-118 | a tick in the reset window can leave count 0 with level CRITICAL |
| AnalyzerSpec.TickRecordsSteering | automind.py:105-106 | a tick appends its steering value to the history, keeping the last 100; a skipped call appends nothing |
| AnalyzerSpec.TickLabelLagsLevel | automind.py:84-114 | the label shown after a tick belongs to the level before it, and not to the new level when the level changed |
| AnalyzerSpec.SilentWindowNoYawn | automind.py:71-82 | 3.5 s of silence at 16 kHz is drained and adds no yawn |
| AnalyzerSpec.LoudWindowOneYawn | automind.py:71-82 | 3.5 s or more of a tone louder than the threshold is drained and adds exactly one yawn |
| AnalyzerSpec.ResetKeyClears | automind.py:373-377 | the space key sets count 0, level NORMAL and the focused label and changes nothing else |
| AnalyzerSpec.SimulatedYawnDebounce | automind.py:378-381 | the H key adds exactly one yawn and records the time when more than 2 s passed since the last accepted one, else does nothing |
| AnalyzerSpec.AtMostOneSimulatedYawnPerFrame | automind.py:364-381 | all events of a frame share its clock reading, so a frame adds at most one simulated yawn |
| AnalyzerSpec.SpeedStepsStayInRange | automind.py:382-387 | `+`/`=` and `-` keep the speed within [0.5, 3.0] and move it up or down respectively |
| AnalyzerSpec.EventsKeepValid | automind.py:367-387 | any sequence of key presses keeps the speed within [0.5, 3.0] and leaves the history alone |
| AnalyzerSpec.Run | automind.py:363-390 | a whole session of captures, frames and alerts keeps the analyzer invariant |
| AnalyzerSpec.SessionStaysValid | automind.py:33-45 | from start-up, speed stays in [0.5, 3.0] and the history within 100 entries for any session |
| Analyzer.FatigueAnalyzer.constructor | automind.py:33-45 | the initial state: NORMAL, no yawns, empty buffer and history, speed 1.0, both clocks at creation time |
| Analyzer.FatigueAnalyzer.AddAudioData | automind.py:47-49 | the buffer becomes the old buffer followed by the chunk, nothing else changes |
| Analyzer.FatigueAnalyzer.VoiceAlert | automind.py:51-58 | speaks and records the time exactly when 30 s passed since the last alert, else changes nothing |
| Analyzer.FatigueAnalyzer.Update | automind.py:60-118 | moves the state as `Tick` does and keeps the invariant |
| Analyzer.FatigueAnalyzer.HandleEvents | automind.py:367-387 | moves the state as the frame's events do in order and reports whether a quit or Escape was seen |

## Left out

- Drawing, icons, fonts, the footer and the chart (`DemoUI` apart from its key branch): presentation only.
- `AudioInterface` and its capture thread: device I/O and concurrency. Delivery of audio is the `AddAudioData` call (`Capture` step); the interleaving of the two threads and any locking are not modelled.
- pyttsx3 speech playback and engine set-up: a blocking foreign call, represented by the returned `Announcement`. The source never calls `_voice_alert`; the model offers it as an operation, as the source does.
- The numeric shape of the steering signal (`np.sin`, `random.uniform`, `random.random`, the weighted `random.choices`): floating point and randomness. The steering value and the label are inputs; `Update` requires the label to come from the vocabulary of the level the branch reads.
- Float rounding: buffer samples are float32 and the speed moves in float steps of 0.2; the model uses exact reals.
- The clock `time.time()`: every time is a parameter; the run loop's frame time and the time `update` reads are separate parameters of a frame.
- AudioEnergy.MeanSquare: states only that energy is non-negative and (by lemma) zero for silence; that a non-silent buffer has positive energy is not proved.
- `main`, `AudioInterface.stop` and the exit code: start-up and shutdown plumbing.
