# Thumper jump-rope tracker: a verified model of its core

Thumper is a browser app for skipping workouts. The microphone picks up the
thud of the rope. A Bluetooth chest strap supplies the heart rate. A session
controller runs the workout and stores it, and the history screen exports
every stored workout as one Garmin TCX file.

This project models, in Dafny, the parts of the app that decide what the user
sees and what gets stored:

- **`JumpDetection`** (`jump_analyzer.dfy`) models the jump analyzer.
  - It is a class with the source's fields.
  - `processBuffer` takes the peak absolute amplitude of a block of audio samples.
  - A jump is reported when the peak is above the threshold and the cooldown has passed.
  - Gaps of up to `maxGapMs` between consecutive jumps add up to the "jump time".
  - Each method is specified by a pure function on a snapshot of the fields (`Process`, `AfterReset`).
- **`Summary`** (`summary.dfy`) models `computeSummary`.
  - The average heart rate is JavaScript's `Math.round` of the mean.
  - The jump time is whole seconds.
  - The jumps-per-minute rate is an exact `real`.
  - `None` stands wherever the source reports `null`.
- **`HeartRate`** (`hr_parser.dfy`) models `parseHeartRate`.
  - This is the decoder of the Bluetooth Heart Rate Measurement characteristic: an 8-bit or a 16-bit little-endian value, chosen by bit 0 of the flags byte.
  - `DataView` reads past the end, which throw a `RangeError` in the source, are an explicit outcome.
- **`Tcx`** (`tcx_builder.dfy`) models `escapeXml` and `buildTcx`.
  - The document is described as an element tree, printed by an indenting renderer.
  - `BuildTcx` keeps the source's string-accumulating loops and is proved to produce exactly that rendering.
  - Lemmas read the tree back: every workout, sample, duration, note and heart rate can be found where a TCX reader would look.
  - Escaping is proved to be undone by unescaping.
- **`History`** (`history_screen.dfy`) models `formatTime` and the grouping loop of `exportAll`.
  - `formatTime` is proved to read back as the duration.
  - The grouping loop is proved to build, for each workout, its samples in stored order.
- **`Session`** (`workout_state.dfy`) models the `WorkoutState` controller.
  - It covers the phases idle, countdown, active, paused, stopped and back to idle.
  - It owns the three interval timers, the readings, the samples, the summary, the saved records and the listener notifications.
  - The class `WorkoutState` keeps the source's fields and updates them in place. Every method is specified by a pure function on a snapshot of the fields.
  - Each transition's outcome is proved about those functions.
  - An invariant (`Tidy`) is proved to be kept by every event that satisfies `Orderly`. `Orderly` is an assumption about how the user interface calls the controller: no `start` during a countdown or an active workout, and `discardWorkout` only when idle or stopped. The controller does not check it, and the lemmas `RestartWhileActiveLeaks` and `DiscardWhileActiveKeepsRunning` show what happens without it.
  - The complete workout of src/state/workout-state.test.ts:193-210 is replayed on the class and on the functions.
- **`Decimal`** (`decimal.dfy`) holds what the above need of JavaScript numbers as text.
  - `String(n)` for integers.
  - `parseInt(s, 10)`: leading white space, an optional sign, then digits. `None` stands for NaN.
  - `parseInt(String(n)) == n` is proved for every integer.
- **`Records`** and **`Wrappers`** hold the stored record types and `Option`.

The names of timers, callbacks and adapters follow the source.
- The injected adapters are part of the session's state (`Environment`):
  - audio capture;
  - the wake lock;
  - key-value storage;
  - the database.
- Clock readings are parameters (`nowMs`), and so is the key the database assigns (`newId`).
- The ISO 8601 formatter `toIso` is a parameter of the TCX functions and is not interpreted.

Behaviour of the code worth knowing, each stated as a lemma:

- **The threshold loaded at construction.**
  - The constructor reads `saved ? parseInt(saved, 10) : 8000` (src/state/workout-state.ts:110-111).
  - So only a missing or empty stored value gives 8000. Stored text that does not start with a number gives NaN, and an analyzer with a NaN threshold never reports a jump (`UnreadableSensitivityNeverJumps`).
- **Timers on a second start.**
  - `start` does not clear the clock or the sampler (src/state/workout-state.ts:173-195), and `beginActive` assigns new handles over the old ones (lines 203-210).
  - So `start` during an active workout leaves one clock interval and one sampler interval firing after the next `stop`, with no handle left to clear them (`RestartWhileActiveLeaks`).
- **The "no jump yet" value.** The last jump time starts at 0 (src/core/jump-analyzer.ts:5), and the cooldown test at line 23 applies to it as to any other time. So a first block at or before `cooldownMs` ms is rejected (`FirstJumpWithinCooldownRejected`).
- **`discardWorkout` has no phase guard** (src/state/workout-state.ts:282-286). Discarding an active workout goes idle with the clock, the sampler and the capture still running (`DiscardWhileActiveKeepsRunning`).
- **Jumps outside the active phase.**
  - The analyzer judges every audio block while capture runs, including during the countdown and a pause (src/api/audio.ts:31-33).
  - The jump callback counts a jump only while active (src/state/workout-state.ts:119-124). The analyzer's jump time still grows, and it reaches the summary (`AudioBlockOutcome`, `JumpTimeAccruesWhilePaused`).

## Model

| member | source | states |
|---|---|---|
| `JumpDetection.PeakIsMaximum` | src/core/jump-analyzer.ts:17-21 | the scanned peak is at least every scanned absolute sample, and is 0 or one of them |
| `JumpDetection.PeakAboveIff` | src/core/jump-analyzer.ts:17-23 | the peak beats the threshold exactly when some scanned sample does, or the threshold is below 0 |
| `JumpDetection.ReportsJumpIff` | src/core/jump-analyzer.ts:14-34 | a jump is reported iff the block is non-empty, some sample exceeds the threshold, and strictly more than the cooldown has passed since the last jump |
| `JumpDetection.RejectedBlockChangesNothing` | src/core/jump-analyzer.ts:15-33 | an empty or rejected block leaves every field unchanged |
| `JumpDetection.AcceptedBlockAccounting` | src/core/jump-analyzer.ts:23-31 | an accepted block moves the last jump time to now; it adds the gap to the jump time iff there was a previous jump and the gap is at most maxGapMs; the configuration is unchanged |
| `JumpDetection.FirstJumpWithinCooldownRejected` | src/core/jump-analyzer.ts:23 | with the sentinel 0, a first block no later than the cooldown is rejected |
| `JumpDetection.JumpTimeBounded` | src/core/jump-analyzer.ts:24-30 | jump time never decreases and never exceeds the last jump time |
| `JumpDetection.ResetThenJumpAccepted` | src/core/jump-analyzer.ts:36-39 | after reset, a loud block after the cooldown is a first jump that adds no jump time |
| `JumpDetection.AfterReset` | src/core/jump-analyzer.ts:36-39 | reset zeroes the last jump time and the jump time and keeps threshold, cooldown and max gap |
| `JumpDetection.JumpAnalyzer.constructor` | src/core/jump-analyzer.ts:2-12 | a new analyzer has the given (or default 8000/200/2000) configuration and no jumps |
| `JumpDetection.JumpAnalyzer.ProcessBuffer` | src/core/jump-analyzer.ts:14-34 | the new fields and the returned flag are those of the specification `Process` |
| `JumpDetection.JumpAnalyzer.Reset` | src/core/jump-analyzer.ts:36-39 | the new fields are those of `AfterReset` |
| `JumpDetection.JumpAnalyzer.SetThreshold` | src/core/jump-analyzer.ts:2 | assigning the public threshold changes it and nothing else |
| `JumpDetection.ScanPeak` | src/core/jump-analyzer.ts:17-21 | the loop finds the maximum absolute value of the scanned samples (0 if none beats 0) |
| `JumpDetection.CooldownScenario` | src/core/jump-analyzer.test.ts:25-34 | a block 100 ms after a jump is rejected, one 201 ms after is accepted |
| `JumpDetection.QuietAndEmptyBlocks` | src/core/jump-analyzer.test.ts:17-38 | a peak of 3000 under threshold 5000 is no jump; an empty block is no jump |
| `JumpDetection.ThresholdChangeScenario` | src/core/jump-analyzer.test.ts:40-46 | a changed threshold applies to the very next block |
| `JumpDetection.ResetScenario` | src/core/jump-analyzer.test.ts:48-52 | after reset a jump 50 ms after the previous one is accepted |
| `JumpDetection.GapScenarios` | src/core/jump-analyzer.test.ts:54-76 | gaps of 500 ms accumulate to 1000; a 5000 ms gap adds nothing |
| `Summary.WholeSeconds` | src/core/summary.ts:20 | the result is the floor of ms / 1000 |
| `Summary.ComputeSummary` | src/core/summary.ts:9-34 | duration is passed through; jump time is the floor of ms/1000; the average is absent iff there are no readings; the count is absent iff it is not positive; the rate exists iff jump seconds and count are both positive, and then rate × seconds = 60 × count |
| `Summary.RatePerMinute` | src/core/summary.ts:22-25 | count / (seconds / 60) times the seconds is 60 × count |
| `Summary.RoundedMeanIsNearest` | src/core/summary.ts:15-18 | the rounded mean r satisfies r − 0.5 ≤ mean < r + 0.5, as Math.round does |
| `Summary.RoundedMeanBetween` | src/core/summary.ts:15-18 | integer bounds on the mean carry over to the rounded mean |
| `Summary.AverageIsRoundedMean` | src/core/summary.ts:15-18 | the reported average is the nearest integer to the exact mean of the readings |
| `Summary.AverageWithinReadings` | src/core/summary.ts:15-18 | the reported average lies between the smallest and largest reading |
| `Summary.SummaryExamples` | src/core/summary.test.ts:5-40 | the worked summaries: average 120, null fields, 20 jumps per minute, floor of 5500 ms is 5 |
| `HeartRate.ParseHeartRate` | src/core/hr-parser.ts:1-9 | a RangeError iff the payload is cut short (1 byte, or 2 bytes with the 16-bit flag); 8-bit values are below 256, all values below 65536 |
| `HeartRate.EncodeMeasurement` | src/core/hr-parser.ts:3-8 | a minimal measurement is 2 bytes (8-bit) or 3 bytes (16-bit) long |
| `HeartRate.ParseEncoded` | src/core/hr-parser.ts:3-8 | every heart rate fitting its width decodes back unchanged |
| `HeartRate.EncodeParsed` | src/core/hr-parser.ts:3-8 | a minimal measurement is exactly the encoding of what it decodes to |
| `HeartRate.OnlyBitZeroMatters` | src/core/hr-parser.ts:5 | flag bits other than bit 0 do not change the result |
| `HeartRate.TrailingBytesIgnored` | src/core/hr-parser.ts:6-8 | bytes after the value do not change it |
| `HeartRate.ParseExamples` | src/core/hr-parser.test.ts:9-26 | the four test payloads decode to 72, 300 (little-endian), 0 for an empty payload, and 200 |
| `HeartRate.CutShortPayloads` | src/core/hr-parser.ts:3-8 | a payload cut before its 8-bit or 16-bit value makes the `DataView` read throw a RangeError |
| `Decimal.DigitsRoundTrip` | src/ui/history-screen.ts:13 | the decimal digits of a natural number denote it |
| `Decimal.ParseIntRoundTrip` | src/state/workout-state.ts:149 | parseInt reads back every integer String writes |
| `Tcx.ReplaceAll` | src/core/tcx-builder.ts:8 | replacing every c by text without c leaves no c |
| `Tcx.EscapeXmlConcat` | src/core/tcx-builder.ts:7-9 | escaping distributes over concatenation |
| `Tcx.EscapeXmlCons` | src/core/tcx-builder.ts:7-9 | the three passes act character by character: each markup character becomes its own entity |
| `Tcx.EscapedHasNoMarkup` | src/core/tcx-builder.ts:7-9 | escaped text holds no < and no > |
| `Tcx.EscapeUnmarked` | src/core/tcx-builder.ts:7-9 | text without &, < and > is unchanged |
| `Tcx.UnescapeEscapeXml` | src/core/tcx-builder.ts:7-9 | because & is replaced first, unescaping the result gives back the original text |
| `Tcx.RenderAllConcat` | src/core/tcx-builder.ts:20-46 | siblings are written one after another |
| `Tcx.NodesConcat` | src/core/tcx-builder.ts:20-46 | the nodes of a concatenation are the nodes of its parts |
| `Tcx.DocumentLines` | src/core/tcx-builder.ts:15-50 | the document is the root tag with its namespace, the Activities element around the activities, and the closing root tag |
| `Tcx.ActivityLines` | src/core/tcx-builder.ts:22-45 | an activity is its Sport tag, its Id, the Lap with its StartTime and body, and the closing tags |
| `Tcx.TrackpointLines` | src/core/tcx-builder.ts:34-41 | a trackpoint is its Time line and, when there is a heart rate, the HeartRateBpm block |
| `Tcx.TrackpointReadBack` | src/core/tcx-builder.ts:34-41 | a trackpoint carries its sample's time, and a heart-rate block iff the sample has a heart rate, whose Value reads back as that rate |
| `Tcx.LapReadBack` | src/core/tcx-builder.ts:25-43 | a Lap's TotalTimeSeconds reads back as the duration; Notes is present iff a jump time is recorded and holds "Jump time: Ns"; its Track is the sample trackpoints |
| `Tcx.ActivityReadBack` | src/core/tcx-builder.ts:21-45 | an activity carries the start time as Id and Lap StartTime, and one trackpoint per sample of its workout in order; a workout without samples has an empty Track |
| `Tcx.DocumentReadBack` | src/core/tcx-builder.ts:18-48 | the Activities element holds one Activity per workout, in the order given |
| `Tcx.ActivitiesInOrder` | src/core/tcx-builder.ts:20-46 | exporting a + b writes the activities of a, then those of b |
| `Tcx.NoWorkouts` | src/core/tcx-builder.ts:15-50 | with no workouts the file is the declaration and an empty Activities element |
| `Tcx.BuildTcx` | src/core/tcx-builder.ts:11-51 | the accumulated string is exactly the declaration plus the rendered document tree |
| `Tcx.WriteActivity` | src/core/tcx-builder.ts:21-45 | one pass of the outer loop appends exactly the rendered Activity of that workout |
| `Tcx.WriteLapBody` | src/core/tcx-builder.ts:25-43 | the TotalTimeSeconds, optional Notes and Track of one Lap are appended, one trackpoint per sample |
| `Tcx.WriteTrackpoint` | src/core/tcx-builder.ts:34-41 | one pass of the inner loop appends exactly the rendered Trackpoint of that sample |
| `Tcx.WriteHeartRate` | src/core/tcx-builder.ts:36-40 | the heart-rate block is appended only for a sample with a reading |
| `History.JsRem` | src/ui/history-screen.ts:12 | JavaScript's % keeps the sign of the dividend, and agrees with the mathematical remainder for non-negative ones |
| `History.PadStart` | src/ui/history-screen.ts:13 | the padded text is at least the width, ends with the original text, and starts with fill characters |
| `History.FormatTimeShape` | src/ui/history-screen.ts:10-14 | a non-negative duration shows as decimal minutes, a colon and two digits from 00 to 59 for the seconds |
| `History.FormatTimeRoundTrip` | src/ui/history-screen.ts:10-14 | reading the m:ss text back gives the duration |
| `History.FormatTimeExamples` | src/ui/history-screen.ts:10-14 | 0 → 0:00, 65 → 1:05, 600 → 10:00, and −61 → -2:-1 with JavaScript's signs |
| `History.Filter` | src/ui/history-screen.ts:40-44 | a workout's list holds only its own stored samples |
| `History.FilterConcat` | src/ui/history-screen.ts:40-44 | grouping keeps the stored order of each workout's samples |
| `History.FilterCounts` | src/ui/history-screen.ts:40-44 | each sample lands in the list of its own workout, once per time it is stored, and in no other |
| `History.GroupStep` | src/ui/history-screen.ts:41-43 | one pass of the loop body turns the grouping of a prefix into the grouping of the prefix one longer |
| `History.GroupByWorkout` | src/ui/history-screen.ts:39-44 | the map built holds, for every workout with samples, exactly its samples in stored order, and nothing else; together the lists hold every sample once |
| `History.ExportAll` | src/ui/history-screen.ts:35-47 | no file when there are no workouts; otherwise the TCX text of the workouts with the grouped samples |
| `Session.SanePreserved` | src/state/workout-state.ts:297-310 | no event makes an interval count negative or leaves a handle with nothing running behind it |
| `Session.ReachableSane` | src/state/workout-state.ts:173-310 | every sequence of events keeps the interval counts sane |
| `Session.InitialTidy` | src/state/workout-state.ts:86-105 | a new controller is idle with no timers, audio, wake lock or summary |
| `Session.TidyPreserved` | src/state/workout-state.ts:173-295 | every event satisfying the calling assumption `Orderly` (no start during a countdown or active workout, discard only when idle or stopped; ticks only while their interval is live) keeps the phase bookkeeping: one timer per running kind, summary iff stopped, capture from countdown to stop, wake lock while active or paused |
| `Session.ReachableTidy` | src/state/workout-state.ts:173-295 | the bookkeeping holds after every sequence of events each of which satisfies `Orderly` |
| `Session.StartResets` | src/state/workout-state.ts:173-195 | start arms a five-second countdown, clears counts, readings, samples, summary and the analyzer's jumps but keeps its threshold, starts capture and notifies the countdown |
| `Session.CountdownTickOutcome` | src/state/workout-state.ts:186-213 | each tick lowers the countdown; the last one clears the countdown timer and begins the active phase at that moment with clock, sampler and wake lock |
| `Session.StartThenFiveTicks` | src/state/workout-state.ts:173-213 | five ticks after a start the workout is active with zero elapsed time and jumps, and still tidy |
| `Session.PauseOutcome` | src/state/workout-state.ts:215-221 | pause is a no-op unless active; when active it freezes the elapsed seconds and stops every interval |
| `Session.ResumeOutcome` | src/state/workout-state.ts:223-238 | resume is a no-op unless paused; when paused it back-dates the start by the paused seconds and schedules the clock and sampler |
| `Session.ElapsedContinuesAfterResume` | src/state/workout-state.ts:226-230 | after a resume the clock shows the paused seconds plus the whole seconds since the resume, never less than before the pause |
| `Session.StopOutcome` | src/state/workout-state.ts:240-258 | stop clears every handle, releases capture and wake lock, takes one last sample and computes the summary from the session's counts |
| `Session.StopSummary` | src/state/workout-state.ts:250-255 | the summary reports the session's elapsed seconds, its readings and its count |
| `Session.SaveOutcome` | src/state/workout-state.ts:260-280 | without a summary nothing happens; with one, exactly one workout record and every sample (tagged with the new key, otherwise unchanged) are stored, and the phase is idle |
| `Session.HeartRateOutcome` | src/state/workout-state.ts:129-135 | a reading always becomes the displayed rate and is kept for the average only while active |
| `Session.AudioBlockOutcome` | src/api/audio.ts:31-33 | every block is judged by the analyzer; a jump counts (and notifies) only while active |
| `Session.JumpTimeAccruesWhilePaused` | src/state/workout-state.ts:119-124 | during a pause a block adds analyzer jump time while the jump count stays put |
| `Session.SensitivityPersists` | src/state/workout-state.ts:147-151 | the new threshold applies at once, is stored as its decimal text, and a controller built over that storage reads it back |
| `Session.UnreadableSensitivityNeverJumps` | src/state/workout-state.ts:110-111 | stored text that does not start with a number gives NaN, and that analyzer never reports a jump |
| `Session.RestartWhileActiveLeaks` | src/state/workout-state.ts:173-213 | start during a workout leaves one clock and one sampler interval firing with no handle after the next stop |
| `Session.DiscardWhileActiveKeepsRunning` | src/state/workout-state.ts:282-286 | discarding an active workout goes idle with clock, sampler and capture still running |
| `Session.TraceHasNoRepeats` | src/state/workout-state.ts:158-160 | the phases a de-duplicating listener records never repeat back to back |
| `Session.FullFlowOutcome` | src/state/workout-state.test.ts:193-210 | the listener sees countdown, active, paused, active, stopped, idle; one workout and its one sample are stored |
| `Session.Tagged` | src/state/workout-state.ts:271-274 | every sample is tagged with the new key and otherwise unchanged, in order |
| `Session.TagSamples` | src/state/workout-state.ts:271-274 | the loop tags every sample with the new key |
| `Session.WorkoutState.constructor` | src/state/workout-state.ts:107-141 | a new controller is idle, with the threshold loaded from storage |
| `Session.WorkoutState.Sensitivity` | src/state/workout-state.ts:143-145 | the getter returns the analyzer's threshold |
| `Session.WorkoutState.SetSensitivity` | src/state/workout-state.ts:147-151 | the new state is that of `AfterSetSensitivity` |
| `Session.WorkoutState.Subscribe` | src/state/workout-state.ts:153-156 | the listener joins the set |
| `Session.WorkoutState.Unsubscribe` | src/state/workout-state.ts:155 | the listener leaves the set |
| `Session.WorkoutState.Notify` | src/state/workout-state.ts:158-160 | one round of calls to the current listeners, seeing the current phase, is recorded |
| `Session.WorkoutState.Start` | src/state/workout-state.ts:173-195 | the new state is that of `AfterStart` |
| `Session.WorkoutState.TickCountdown` | src/state/workout-state.ts:186-194 | one firing of the countdown interval; the new state is that of `AfterCountdownTick` |
| `Session.WorkoutState.BeginActive` | src/state/workout-state.ts:197-213 | the new state is that of `AfterBeginActive` |
| `Session.WorkoutState.TickElapsed` | src/state/workout-state.ts:203-206 | one firing of the clock interval: elapsed seconds are the floor of the time since the start |
| `Session.WorkoutState.TickSample` | src/state/workout-state.ts:208-210 | one firing of the sampler interval appends one sample |
| `Session.WorkoutState.Pause` | src/state/workout-state.ts:215-221 | the new state is that of `AfterPause` |
| `Session.WorkoutState.Resume` | src/state/workout-state.ts:223-238 | the new state is that of `AfterResume` |
| `Session.WorkoutState.Stop` | src/state/workout-state.ts:240-258 | the new state is that of `AfterStop` |
| `Session.WorkoutState.SaveWorkout` | src/state/workout-state.ts:260-280 | the new state is that of `AfterSave` |
| `Session.WorkoutState.DiscardWorkout` | src/state/workout-state.ts:282-286 | the summary is dropped and the phase is idle, from any phase |
| `Session.WorkoutState.CollectSample` | src/state/workout-state.ts:288-295 | one sample with the current heart rate and jump count is appended |
| `Session.WorkoutState.ClearTimers` | src/state/workout-state.ts:297-310 | every interval that holds a handle is cleared and its handle dropped |
| `Session.WorkoutState.OnHeartRate` | src/state/workout-state.ts:129-135 | the new state is that of `AfterHeartRate` |
| `Session.WorkoutState.OnStateChange` | src/state/workout-state.ts:137-140 | the connection state is updated and the listeners notified |
| `Session.WorkoutState.OnJump` | src/state/workout-state.ts:119-124 | a jump adds one to the count and notifies, only while active |
| `Session.WorkoutState.OnAudioBlock` | src/api/audio.ts:31-33 | the new state is that of `AfterAudioBlock` |
| `Session.FullFlowScenario` | src/state/workout-state.test.ts:193-210 | driving a controller object through the full workout shows the listener countdown, active, paused, active, stopped, idle and stores one workout and one sample |

## Left out

- Bluetooth scanning and connecting (`scanAndConnect`, `disconnectBle`, src/state/workout-state.ts:162-170) only call the adapter. They change no controller state of their own; the adapter's callbacks are modelled as `OnHeartRate` and `OnStateChange`.
- The adapters always succeed. Audio start, wake-lock acquire and release, and the database writes are modelled as resolving. A rejected promise (an audio start that fails, say) is not modelled.
- Asynchrony. Each operation runs to completion. Interleavings at an `await` are not modelled, such as a tick arriving between `audio.start()` and the countdown being scheduled. The timers are counts of live intervals. When a tick may happen is a precondition of its method; the interval periods, including `SAMPLE_INTERVAL_MS`, are not modelled.
- Listeners are numbers. A notice records the phase and the set of listeners called, not what each listener does. Removing a listener while the set is being iterated is not modelled.
- Floating point. The rate is an exact `real`, and `Math.round` and `Math.floor` act on exact quotients. Audio samples are integers, so the conversion of float audio to 16-bit samples in src/api/audio.ts is not part of this model.
- `String(n)` is modelled for integers only, and without exponent notation. JavaScript switches to exponent notation at 1e21.
- `Date`, `toISOString`, `toLocaleDateString` and `Date.now()` are not modelled. `toIso` is a parameter, and the current time is a parameter of every operation that reads it.
- `buildTcx` takes the samples as a `map`. Aliasing between the `Map` and its arrays is not modelled.
- `Session.WorkoutState.constructor`: the source either takes the analyzer out of the default audio capture or creates a new one, and the model always creates a new one. The default wiring of the jump callback is modelled by `OnJump` and `OnAudioBlock`.
- The rest of the history screen is not modelled. This covers the database queries and their ordering by start time, `formatDate`, the per-workout `exportWorkout` file name, `downloadFile`, the rendering and deletion of list items, and the DOM.
- A database sample's own key is not modelled.
- The heart-rate service and characteristic UUID constants (src/core/hr-parser.ts:11-12) are not modelled; they only name what the adapter subscribes to.
