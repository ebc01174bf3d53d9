# Maestro control logic in Dafny

Maestro is a browser toy. A webcam hand tracker drives a particle sphere and a
procedurally generated techno track. A pinch shatters the sphere and brings in
a "break" drum overlay. Hand height and position steer the filter cutoff, the
delay and the tempo. This project models the control logic behind those
effects and proves properties of it. The Web Audio, THREE.js and MediaPipe
calls around that logic are left out.

The project has five modules, one per concern:

- `Signal` (`signal.dfy`) holds what the source files share:
  - the clamp, `num` and `ema`/`smooth` helpers;
  - a JavaScript number that may be non-finite (`Num`);
  - the hand `Influence` and `Gesture` records;
  - `Bus`, an audio parameter reduced to its current value and its last
    recorded ramp (target and end time).
- `Techno` (`techno.dfy`) models the sequencer of `src/techno.js`:
  - pitch quantisation, written as the source's loop and proved against a
    specification of the first nearest scale degree;
  - swing timing, the kick's duck floor and chords;
  - the presets and the clamping setters;
  - what one step emits;
  - the lookahead scheduler loop.

  The class `Engine` holds the sequencer's closure state.
- `Audio` (`audio.dfy`) models the audio control of `src/audio.js`:
  - the spectrum analyser's summing loops and band partition;
  - the kick pulse and the media pump;
  - the hand-to-effects routing;
  - the break overlay's drum pattern and lookahead loop;
  - the Idle/Active break machine.

  The class `Mixer` holds the module state.
- `Particles` (`particles.dfy`) models the shatter envelope and the shape
  selection of `src/particles.js`. The class `Field` covers `pinchEvent`, the
  per-frame envelope and shape weights of `updateParticles`, and the reset in
  `initializeSphere`.
- `Hands` (`hands.dfy`) models the tracker of `src/hands.js`:
  - the landmark-to-world map and the pinch strength;
  - the hand loop, with the best pinch and the slot updates;
  - the confidence sort and the two influences;
  - the gesture summary;
  - the pinch hysteresis.

  The class `Tracker` runs one `onResults` frame. It returns the start, hold
  and end signals in order. `ParticleEventOf` turns each signal into the
  argument `pinchEvent` receives.

Things the source reads from outside are parameters of the model:

- **The clocks.** The audio clock (`audioCtx.currentTime`, `ctx.currentTime`)
  and `performance.now()` are the `now` parameters.
- **`setTimeout` and `setInterval`.** Each timer is a flag. Each tick is an
  explicit call.
- **Randomness.** The `Math.random` draws of a sequencer step (jitter and the
  open-hat choice) are a `Roll` per emitted step.
- **Maths functions.** `Math.pow` and `Math.hypot`/`distanceTo` are function
  parameters.
- **Settings.** The values of `src/settings.js` that the core reads are
  constants. `pumpAmount` is the only setting read through `num()` that is
  kept as a `Num` (`Audio.Mixer.pumpSetting`), so `Audio.PumpAmount` models
  `num()`'s fallback for a value that is not finite.
  `masterLPFMin`, `masterLPFMax` and `bpm` are also read through `num()`, but
  they are modelled as their finite `src/settings.js` values `LpfMin`, `LpfMax`
  and `SettingsBpm`.

## Model

| member | source | states |
|---|---|---|
| Signal.Clamp | src/audio.js:65 | For lo ≤ hi the result lies in [lo, hi]. A value inside is kept, one below gives lo, one above gives hi. |
| Signal.Clamp01 | src/particles.js:192 | The result lies in [0, 1], and a value already in [0, 1] is kept. |
| Signal.OrDefault | src/audio.js:66 | `num(v, d)`: a finite value is kept and a non-finite one is replaced by the default. |
| Signal.Ema | src/hands.js:65 | For a rate in [0, 1] the step lands between the current value and the target. Rate 0 keeps the value; rate 1 reaches the target. |
| Signal.EmaBetween | src/particles.js:193 | `smooth(cur, target, s)` with s in [0, 1] lies between cur and target. |
| Audio.SafeSet | src/audio.js:67-70 | The written value always lies in [min, max]. A finite in-range value is written unchanged, and a non-finite one is replaced by the clamped default. The recorded ramp is kept. |
| Audio.SafeSetIdempotent | src/audio.js:67-70 | Writing back the value `safeSet` just wrote changes nothing. |
| Audio.BreakTargetGain | src/audio.js:381-382 | The overlay gain lies in [0.7, 1.2] for every strength. |
| Audio.BreakDuckFloor | src/audio.js:381-383 | The duck floor lies in [0.75, 0.90] for every strength. |
| Audio.BreakLevelsMonotone | src/audio.js:381-383 | A stronger gesture never lowers the overlay gain and never raises the floor. Strengths at or below 0 give 0.7/0.9; at or above 1 they give 1.2/0.75. |
| Audio.BreakLevelsHalf | src/audio.js:381-383 | Strength 0.5 gives gain 0.95 and floor 0.825. |
| Audio.SumRangeBounds | src/audio.js:256-258 | A sum of byte bins lies between 0 and 255 times the number of bins. |
| Audio.SumRangeSplit | src/audio.js:256-258 | Summing two adjacent ranges is summing their union. |
| Audio.SumBins | src/audio.js:250 | The summing loop computes the sum of the bins it visits. |
| Audio.CutPoints | src/audio.js:253-254 | bassEnd = ⌊n/10⌋ and midEnd = ⌊2n/5⌋, with 0 ≤ bassEnd ≤ midEnd ≤ n. |
| Audio.FloorOfFraction | src/audio.js:253-254 | `Math.floor(n * 0.10)` and `Math.floor(n * 0.40)` are exact integer divisions. |
| Audio.BandMean | src/audio.js:259-261 | A band mean divided by 255 lies in [0, 1], and an empty band reads 0 through the `max(1, ·)` divisor. |
| Audio.Level | src/audio.js:250-251 | The level sum / (n · 255) lies in [0, 1]. |
| Audio.MeasureBand | src/audio.js:256-261 | One band loop and its normalisation compute the band's mean. |
| Audio.MeasureSpectrum | src/audio.js:248-261 | The four loops compute the spectrum function of the bins. |
| Audio.Spectrum | src/audio.js:249-261 | Bass, mid, treble and level each lie in [0, 1]. |
| Audio.BandsPartition | src/audio.js:253-258 | The three band loops together visit every bin exactly once: their sums add up to the total. |
| Audio.TinySpectrum | src/audio.js:253-259 | With fewer than ten bins the bass band is empty and reads 0. |
| Audio.KickFromAudio | src/audio.js:264 | The audio kick lies in [0, 1]. It is 0 when the bass is at or under its floor and 1 when the bass is at least 1/6 above it. |
| Audio.PumpAmount | src/audio.js:271 | The pump depth lies in [0, 0.85]. A non-finite setting gives the default 0.15; a setting in range is kept. |
| Audio.PumpedGain | src/audio.js:272 | The pumped master gain lies in [0, 2]. |
| Audio.PumpRange | src/audio.js:269-273 | With the kick pulse in [0, 1] and a depth in [0, 0.85], the gain lies in [0.15, 1]. It is 1 without a kick and never rises with a stronger kick. |
| Audio.DeeperDip | src/audio.js:272 | A stronger kick never raises the pumped gain. |
| Audio.GainOfDip | src/audio.js:272 | Inside the pump's range the clamp is idle, and the gain is exactly 1 − amount · kick. |
| Audio.Unit | src/audio.js:281-282 | A world coordinate maps into [0, 1], and on [−30, 30] the map is (c + 30)/60. |
| Audio.BpmFactorAsWrittenOnlySlows | src/audio.js:302 | As written, the tempo factor spans [0.8, 1.0]. With the hand centred it is 0.9, so 126 BPM becomes 113.4. |
| Audio.BpmFactorWithinTenPercent | src/audio.js:302 | The corrected factor spans [0.9, 1.1], and a centred hand keeps the base tempo. |
| Audio.HandControls | src/audio.js:280-305 | For every hand, cutoff ∈ [20, 22050], delay ∈ [dMin, dMax], feedback ∈ [0, 0.95] and tempo ∈ [90, 160]. The tempo uses the factor as written. |
| Audio.DelayBetween | src/audio.js:290-292 | The delay dMin + (dMax − dMin) · x01 lies in [dMin, dMax] for x01 in [0, 1]. |
| Audio.HandControlsFollowHand | src/audio.js:281-305 | The delay follows the hand's x linearly, from dMin at the left edge to dMax at the right. The feedback runs from 0.175 at rest (or with no hand) to 0.25 at 140 units/s and beyond. The tempo, from the factor as written, lies in [100.8, 126] and is 113.4 at height 0 or with no hand. |
| Audio.DelayMonotone | src/audio.js:288-292 | Moving the hand right never shortens the delay. |
| Audio.OverlayHits | src/audio.js:362-365 | Every overlay step has a hat, and a snare step always has a kick too. |
| Audio.OverlayBar | src/audio.js:362-365 | Within a bar, the kick falls exactly on 0, 4, 8 and 12 and the snare exactly on 4 and 12. |
| Audio.OverlaidOrdered | src/audio.js:361-367 | Booked overlay steps are exactly one step length apart in strictly increasing time, and the bar position advances by one modulo 16 (no swing). |
| Audio.BookedNext | src/audio.js:361-367 | One pass of the loop body extends the booked steps by the step under the cursor and moves the cursor on. |
| Audio.OverlaidSnoc | src/audio.js:361-367 | Appending the step that follows keeps a run regular. |
| Audio.OverlayStepDur | src/audio.js:357-359 | The overlay step length 60/bpm/4 is positive for every non-negative tempo. A zero tempo falls back to the base 126 BPM. |
| Audio.Mixer.constructor | src/audio.js:32-44 | The module-load state: tempo 126, break off with gain 1.8 and floor 0.08, no timer, cursor at 0, no nodes. The pump setting is `settings.pumpAmount` (0.15), the same constant the engine's kick duck reads. |
| Audio.Mixer.InitAudioAnalysis | src/audio.js:99-236 | It runs only once. The parameters start at their initial values and the engine kick at 0. The sequencer autostarts when the media is idle. |
| Audio.Mixer.CreateNodes | src/audio.js:119-184 | The nodes' parameters exist with their initial values. |
| Audio.Mixer.OnEngineKick | src/audio.js:226 | The engine kick callback sets the envelope to 1. |
| Audio.Mixer.EngineTick | src/audio.js:224-226 | One tick of the running engine's interval, with the callback installed. It plays what `Engine.Scheduler` plays and leaves the engine's cursor, duck and send as the scheduler does. Afterwards the kick envelope is 1 if the tick triggered a kick and unchanged otherwise. |
| Audio.Mixer.ReadEngineKick | src/audio.js:227 | Each read decays the envelope by 0.86 and returns it, and the result lies in [0, previous]. |
| Audio.Mixer.AnalyzeAudio | src/audio.js:245-274 | Before the nodes exist nothing changes. Otherwise it sets the spectrum, steps the bass floor by the 0.12 EMA, and takes the kick pulse as the max of the two kicks. The pump writes the master gain only while the break is off. The kick pulse stays in [0, 1] (class invariant). |
| Audio.Mixer.Pump | src/audio.js:269-273 | The master gain is set to the pumped gain of the current kick pulse. |
| Audio.Mixer.RouteHandsToAudio | src/audio.js:277-307 | Before the nodes exist nothing changes. Otherwise cutoff, delay, feedback and tempo are the `HandControls` values, and the sequencer's tempo follows. |
| Audio.Mixer.ScheduleNextSteps | src/audio.js:355-369 | With the break off nothing happens. Otherwise it books the regular run of overlay steps from the cursor, all before now + 0.15, and exits with the cursor at or after now + 0.15. |
| Audio.Mixer.BookStep | src/audio.js:362-367 | One loop pass books the step under the cursor and strictly shrinks the number of steps left. |
| Audio.Mixer.SchedulerTick | src/audio.js:370-374 | With the break off the timer is cleared and nothing is booked. Otherwise the steps are booked and the timer re-armed. |
| Audio.Mixer.HoldBreak | src/audio.js:414-424 | A no-op unless the break is on. While it is on, it records gain and floor for the strength and ramps overlay, master and engine to them within 80 ms. |
| Audio.Mixer.EnterBreak | src/audio.js:380-410 | From Idle: break on, gain and floor for the strength, master and engine ramped to base · floor, overlay ramped in, filter opened to 16 kHz, cursor on step 0 50 ms later. |
| Audio.Mixer.StartBreak | src/audio.js:376-412 | Already active, it behaves as `holdBreak`, and the cursor and timer are not reset. From Idle it enters the break and gives every bus its old value (or its initial value if the nodes were just created) and its ramp. It runs the first tick and books the downbeat (kick and hat, no snare) at now + 0.06. Delay, feedback, kick envelope and engine stay as they were once the nodes existed. Otherwise they take their initial values, and the engine starts exactly when auto-techno is on and the media is idle. |
| Audio.Mixer.EndBreak | src/audio.js:426-442 | A no-op unless the break is on. While it is on: break off, timer cleared, master and engine ramped to exactly their base levels, overlay ramped to 0. |
| Techno.JsRem | src/techno.js:43 | JavaScript's `%` has the dividend's sign: it agrees with the residue on non-negative numbers and is the negated residue of −a for negative ones. |
| Techno.DegreeIsResidue | src/techno.js:43 | `((off % 12) + 12) % 12` is the mathematical residue of off for every sign. |
| Techno.OctaveIsFloorDiv | src/techno.js:42 | `Math.floor(off / 12)` is integer floor division. |
| Techno.FirstNearestUnique | src/techno.js:44-45 | At most one index is the first nearest scale entry. |
| Techno.FirstNearest | src/techno.js:44-45 | The index found is the first nearest: no entry is nearer and no earlier entry is as near. |
| Techno.NearestExtend | src/techno.js:45 | Scanning one more entry moves to it exactly when it is strictly nearer (`diff < best`). |
| Techno.NearestDegree | src/techno.js:44-45 | The source's loop over the scale returns the first nearest entry. |
| Techno.QuantizeMidi | src/techno.js:40-47 | The quantised pitch is root + 12·⌊(m − root)/12⌋ + the first nearest degree. |
| Techno.NearestTable | src/techno.js:39-45 | On the minor scale, the scan pulls each residue 0..11 to the table's degree; ties go to the lower degree. |
| Techno.NearestIndex | src/techno.js:39-45 | Each table entry is the first nearest entry of the minor scale. |
| Techno.QuantizeIsTable | src/techno.js:40-47 | With the default scale and root, the scan agrees with the table for every pitch. |
| Techno.MinorQuantize | src/techno.js:40-47 | On the minor scale, the pitch is root + 12·octave + the table's degree. |
| Techno.QuantizeAt | src/techno.js:40-47 | The quantised pitch through any index known to be the first nearest. |
| Techno.QuantizeTie | src/techno.js:45 | A degree halfway between two scale degrees (1, 4, 6, 9) goes down a semitone. |
| Techno.QuantizeForty | src/techno.js:40-47 | quantizeMidi(40) = 39. |
| Techno.QuantizeFixesScalePitch | src/techno.js:40-47 | A pitch whose degree is on the scale is left unchanged. |
| Techno.QuantizeRoundsDown | src/techno.js:40-47 | Quantising moves a pitch down by at most a semitone, never up, and lands on the scale. |
| Techno.QuantizeIdempotent | src/techno.js:40-47 | Quantising twice equals quantising once. |
| Techno.ChordToMidis | src/techno.js:206-208 | The triad is [r, r + 3, r + 7] for minor and [r, r + 4, r + 7] for major. |
| Techno.KickDuckFloor | src/techno.js:95-97 | The floor is 0.92 in calm mode. Otherwise it is 0.55 − pumpAmount for pumpAmount in [−0.15, 0.35], 0.2 above and 0.7 below; it always lies in [0.2, 0.92]. |
| Techno.SwingPairSum | src/techno.js:296-301 | An even step and the odd step after it last exactly two plain sixteenths: swing preserves the mean. |
| Techno.StepDuration | src/techno.js:296-301 | `secondsPerStep`, the swung sixteenth. Its properties are stated by `Techno.StepDurationBounds` and `Techno.SwingPairSum`. |
| Techno.StepDurationBounds | src/techno.js:296-301 | For a tempo in [60, 200] and swing in [0, 0.2], a step lasts between 60 ms and 300 ms. |
| Techno.UpdateField | src/techno.js:374-378 | One guarded assignment: a supplied value is clamped to the field's range, an absent one keeps the field. |
| Techno.ApplyUpdate | src/techno.js:373-379 | `setParams` sets each supplied field to the supplied value clamped to its own range, and leaves every absent field unchanged. |
| Techno.ApplyUpdateKeepsRange | src/techno.js:373-379 | Parameters in range stay in range, and for each of the five fields a supplied value already in range is taken as is. |
| Techno.ApplyUpdateIdempotent | src/techno.js:373-379 | Applying the same update twice equals applying it once. |
| Techno.PresetOf | src/techno.js:248-293 | The four presets of `PRESETS`. `Techno.PresetsWellFormed` states that each has parameters within the `setParams` ranges, 16-step bass and chord-root patterns and a positive chord period, and `Techno.PresetNamed` that a name has a preset exactly when it is one of the four keys. |
| Techno.PresetNamed | src/techno.js:248-293 | A name denotes a preset exactly when it is one of the four keys of `PRESETS`. |
| Techno.PresetsWellFormed | src/techno.js:248-293 | Every preset's parameters are within the `setParams` ranges, so copying them stores them exactly. Every preset has 16-step bass and chord-root patterns and a positive chord period. |
| Techno.Jittered | src/techno.js:38 | One step's time moved by a random draw. `Techno.JitterBounded` states that the result lies within ±amplitude of the step time, and `Techno.StepNotesContents` that every note of a step sounds at that one time. |
| Techno.JitterBounded | src/techno.js:38 | A jittered time lies within ±amplitude of the step time. |
| Techno.PatternsAsArithmetic | src/techno.js:235-237 | Kick exactly on every beat, clap exactly on steps 4 and 12, hat exactly on odd steps. |
| Techno.FiredFrom | src/techno.js:307-329 | The emitted notes keep the candidates' fixed order. |
| Techno.FiredKeeps | src/techno.js:307-329 | A candidate whose rule fires is emitted. |
| Techno.FiredHas | src/techno.js:307-329 | A voice is emitted exactly when its rule fires. |
| Techno.Candidates | src/techno.js:303-330 | The notes one step may trigger. `Techno.CandidateRanks` states their order (kick, clap, hat, bass, chord), and `Techno.StepNotesVoices` that a voice sounds exactly when its pattern, chance or chord rule fires. |
| Techno.BassAt | src/techno.js:320 | The bass pattern's MIDI note at a step, 0 past the pattern's end. `Techno.StepNotesVoices` states that the bass sounds exactly when this note is not 0, and `Techno.StepNotesContents` that it then plays the note quantised to the minor scale. |
| Techno.ChordRootAt | src/techno.js:327 | The chord root at a step, 36 when the pattern has none there. `Techno.StepNotesContents` states that a sounding chord is built on this root. |
| Techno.KickRelease | src/techno.js:100 | The duck's release time: 0.18 s in calm mode, 0.22 s otherwise. `Techno.StepNotesContents` states that every kick of a step carries it, and `Techno.StepDuckFromNotes` that after a kick step the duck is back at 1 this long after the kick's time. |
| Techno.CandidateRanks | src/techno.js:307-329 | The step's five candidates come in the order kick, clap, hat, bass, chord. |
| Techno.StepNotes | src/techno.js:303-330 | The notes `scheduleStep` triggers. Its properties are stated by `Techno.StepNotesVoices` and `Techno.StepNotesContents`. |
| Techno.StepNotesVoices | src/techno.js:303-330 | A step emits the kick iff the kick pattern fires, the clap iff idx ∈ {4, 12}, the hat iff idx is odd, the bass iff the preset's bass entry is non-zero, and the chord iff idx % chordEvery = 0. They come in that order. |
| Techno.StepNotesContents | src/techno.js:303-330 | Every note sounds at the one jittered time. The kick ducks to the mode's floor and release. The bass is at the quantised pitch with the current velocity and cutoff. The chord root defaults to 36 and the chord velocity is 0.16 in calm mode, 0.18 otherwise. The hat carries the current density and is open exactly when the draw is below `openHatChance`. |
| Techno.KickDuck | src/techno.js:96-100 | The duck after a step, read off its notes. Its properties are stated by `Techno.StepDuckFromNotes` and `Techno.DuckSnoc`. |
| Techno.StepDuckFromNotes | src/techno.js:96-100 | Only a step that emits a kick moves the duck: it drops to the floor and ramps back to 1. |
| Techno.RevSendSnoc | src/techno.js:309-311 | Each clap raises the reverb send by 0.03, capped at 0.22. |
| Techno.DuckSnoc | src/techno.js:96-100 | The duck after one more step is that step's kick duck over the previous duck. |
| Techno.RevSendBounded | src/techno.js:310-311 | Over any run of steps the send never falls except to the cap, and never exceeds max(start, 0.22). |
| Techno.ChainIndices | src/techno.js:334-339 | Within a tick the step index counts up modulo 16 from the cursor, and the cursor ends |steps| further on. |
| Techno.ChainDeadlines | src/techno.js:334-339 | For a tempo in [60, 200] and swing in [0, 0.2], deadlines strictly increase and all lie in [start, end cursor). |
| Techno.KicksOnTheBeat | src/techno.js:303-330 | A tick triggers a kick, and so the kick callback, exactly when one of its steps has an index divisible by four. |
| Techno.PlayedEach | src/techno.js:334-336 | Every emitted step plays exactly what `scheduleStep` gives for its index, deadline and draws. |
| Techno.ChainSnoc | src/techno.js:336-338 | One more loop pass keeps the steps a chain. |
| Techno.PlayedSnoc | src/techno.js:335 | One more emitted step keeps the tick's record of steps played. |
| Techno.Engine.constructor | src/techno.js:52-59 | The engine starts stopped and calm at 126 BPM with swing 0.06, on DeepChill with the default parameters, cursor 0, reverb send 0.12 and duck 1. |
| Techno.Engine.SetCalmMode | src/techno.js:60 | The mode is set and nothing else changes. |
| Techno.Engine.SetBPM | src/techno.js:370 | The tempo is clamped to [60, 200]. |
| Techno.Engine.SetSwing | src/techno.js:371 | Swing is clamped to [0, 0.2]. |
| Techno.Engine.SetParams | src/techno.js:373-379 | The parameters become `ApplyUpdate` of the old ones. |
| Techno.Engine.SetPreset | src/techno.js:383-394 | An unknown name changes nothing. A known one becomes the active preset, and its five parameters are copied. |
| Techno.Engine.Start | src/techno.js:345-362 | A no-op while running. Otherwise the cursor goes to step 0 at now + 0.05, the active preset's parameters apply, and the engine runs. |
| Techno.Engine.Stop | src/techno.js:364-368 | The engine stops; cursor and settings are kept. |
| Techno.Engine.ScheduleStep | src/techno.js:303-330 | The step emits `StepNotes`. A clap raises the reverb send by 0.03 up to 0.22, and a kick ducks the music bus. |
| Techno.Engine.PlayStep | src/techno.js:335 | One step is emitted at the cursor and recorded with its notes, duck and send. |
| Techno.Engine.MoveCursor | src/techno.js:336-338 | The cursor advances one swung step and the chain grows by the step just emitted. |
| Techno.Engine.Advance | src/techno.js:335-338 | One loop pass: emit, then move on, with tempo, swing, parameters, mode and preset unchanged. |
| Techno.Engine.Scheduler | src/techno.js:332-340 | While the engine runs, it emits the chain of steps from the old cursor, each with a deadline before now + 0.12, and leaves the cursor at or after now + 0.12. Each step plays its `scheduleStep` notes; duck and send follow them. |
| Particles.EventStrength | src/particles.js:325 | The strength lies in [0, 1], defaults to 1 when missing, and an in-range strength is kept. |
| Particles.Bumped | src/particles.js:329 | The impulse never exceeds `pinchMaxVel` and grows by the gain until it reaches that cap. |
| Particles.Raised | src/particles.js:330 | Under full shatter the target is 1. Otherwise it is max(target, s), so it never falls and stays in [0, 1]. |
| Particles.DecayedImpulse | src/particles.js:382-383 | The decayed impulse is ≥ 0 and at most `damping` × the old one, and an impulse under one frame's decay goes to 0. |
| Particles.DampingNeverGrows | src/particles.js:382-383 | For any decay ≥ 0 and damping ∈ [0, 1], the impulse stays ≥ 0 and never grows. |
| Particles.ReformTick | src/particles.js:381 | The timer counts down by 1/60 only while positive. |
| Particles.CountdownLinear | src/particles.js:381 | A timer of k frames loses one frame per frame. |
| Particles.CountdownStays | src/particles.js:381 | A timer that has run out stays at 0. |
| Particles.TimerExpires | src/particles.js:381 | A timer of k frames is positive for fewer than k frames and 0 afterwards. |
| Particles.ReformExpires | src/particles.js:331 | The 0.30 s reform delay lasts exactly 18 frames. |
| Particles.LayerOpacity | src/particles.js:461 | Opacity is 1 at rest, `shatterOpacityMin` when fully shattered, and in between for explode in [0, 1]. |
| Particles.OpacityFalls | src/particles.js:461 | Opacity falls as explode rises. |
| Particles.ExplodeApproaches | src/particles.js:384-385 | Each frame closes the gap to the explode target by the factor 1 − `explodeSmoothing`, and keeps explode in [0, 1]. |
| Particles.ShapeTarget | src/particles.js:428-434 | The target is one-hot. It is the torus iff shaping is not blocked, two hands are present and sep > splitThreshold; else the cube iff not blocked and fist > fistThreshold; else the sphere. |
| Particles.MorphRate | src/particles.js:436-438 | The morph rate lies strictly between 0 and 1. |
| Particles.SmoothKeepsBlend | src/particles.js:436-438 | Smoothing towards a one-hot target keeps each weight in [0, 1] and the sum 1. The target's weight never falls. |
| Particles.SepOf | src/particles.js:426 | The separation is clamped to [0, 1] and reads 0 without a gesture. |
| Particles.Field.constructor | src/particles.js:151-155 | Module load: explode, target, impulse and timer 0, sphere weights, centre at the origin, full shatter as `settings.pinchFullShatter` sets it. |
| Particles.Field.InitializeSphere | src/particles.js:295-321 | The reset: explode, target, impulse and timer 0, weights all sphere, centre at the origin, fresh opaque layers. |
| Particles.Field.PinchEvent | src/particles.js:324-338 | Start and hold bump the impulse by s · (strength or bleed), capped, raise the explode target and re-arm the timer. End only zeroes the target. A present position becomes the pinch centre. The target never falls except on end. |
| Particles.Field.UpdateEnvelope | src/particles.js:380-438 | Before the layers exist nothing changes. Otherwise the timer ticks, the impulse decays, explode follows its target, the weights morph towards the shape target, and the opacity follows explode (line 461). |
| Hands.ToWorld | src/hands.js:67-77 | `toWorld`, the map from preview to world coordinates. Its properties are stated by `Hands.ToWorldRoundTrip`, `Hands.ToWorldRange` and `Hands.ToWorldOrientation`. |
| Hands.ToWorldRoundTrip | src/hands.js:67-77 | The map to world space has an inverse, so no two preview points collide. |
| Hands.ToWorldRange | src/hands.js:67-77 | The unit preview square lands on [−30, 30] in x and y, and its centre on the origin. |
| Hands.ToWorldOrientation | src/hands.js:69-74 | The mirror flips world x alone. Higher on the preview is higher in the world. On the mirrored preview, right (a smaller camera x) is right in the world, a larger world x. |
| Hands.PinchStrength | src/hands.js:300-305 | The pinch strength lies in [0, 1]. |
| Hands.PinchStrengthShape | src/hands.js:300-305 | Touching fingers pinch fully, and a gap of 0.7 spans or more gives 0. A wider gap never pinches harder. |
| Hands.LandmarkGap | src/hands.js:300-304 | The distance of two landmarks with the depth difference scaled by 0.7. `Hands.StrengthOf` states that the pinch strength built from the thumb-index gap lies in [0, 1], and `Hands.PinchStrengthShape` that it is 1 at a zero gap and 0 once the gap reaches 0.7 of the span. |
| Hands.StrengthOf | src/hands.js:300-305 | One hand's strength lies in [0, 1]. |
| Hands.Scan | src/hands.js:263-296 | The hand loop adds one `local` entry per detected hand. |
| Hands.EntryOf | src/hands.js:283-291 | One hand's entry. `Hands.ScanEntries` states that it carries the hand's score (0 when missing), its world wrist and its openness and fist scores. |
| Hands.ScanEntries | src/hands.js:266-296 | Each entry carries its hand's score (0 when missing), its world wrist and its openness and fist scores. |
| Hands.Slots.Track | src/hands.js:273-277 | The slot update for one detected hand. Its properties are stated by `Hands.TrackMovesOneSlot`. |
| Hands.TrackMovesOneSlot | src/hands.js:273-277 | Only the slot the label picks ("Left", otherwise right) changes. Its position becomes the world wrist and its previous position the old one. It is seen, with the hand's score. Previous position plus velocity × dt is the new position. |
| Hands.ScanSeen | src/hands.js:256-277 | After the loop, the left slot is seen exactly when some hand is labelled "Left". The right slot is seen exactly when some hand has another label or none. |
| Hands.BestPinch | src/hands.js:260-261 | The best pinch strength lies in [0, 1]. |
| Hands.BestPinchIsMax | src/hands.js:307-313 | The best strength is at least every hand's strength, and there is no pinch position exactly when it is 0. |
| Hands.PinchWorld | src/hands.js:309-313 | The world position of the thumb-index midpoint. `Hands.BestPinchIsFirst` states that the frame's pinch position is this point for the first hand of the best strength. |
| Hands.BestPinchIsFirst | src/hands.js:307-313 | The pinch position is the thumb-index midpoint of the first hand of the best strength. |
| Hands.Insert | src/hands.js:328 | Insertion adds exactly one hand (same multiset plus it). |
| Hands.InsertSorted | src/hands.js:328 | Insertion keeps the order by descending confidence. |
| Hands.SortLocal | src/hands.js:328 | The sort returns a permutation of the hands. |
| Hands.SortLocalSorted | src/hands.js:328 | The sort orders the hands by descending confidence. |
| Hands.Influences | src/hands.js:330-335 | There are always exactly two influence slots. |
| Hands.InfluencesTopTwo | src/hands.js:328-335 | The first slot holds a hand iff one was seen, the second iff two were seen. The first is the most confident hand of the frame and the second is no more confident. |
| Hands.SecondInfluenceIsNext | src/hands.js:328-335 | With two or more hands, the second slot is the second hand of the sort, at least as confident as every hand ranked after the first. |
| Hands.GestureAfter | src/hands.js:337-348 | The gesture summary after a frame. Its properties are stated by `Hands.GestureSummary` and `Hands.FrameKeepsRanges`. |
| Hands.GestureSummary | src/hands.js:337-348 | With two influences, twoHands holds and sep01 = clamp(d/40, 0, 1). Otherwise twoHands is off and sep01 moves a quarter of the way to 0. Scores in [0, 1] keep the summary in [0, 1]. |
| Hands.PinchFrame | src/hands.js:357-378 | Not pinching with sm ≥ ON starts; pinching with sm ≤ OFF ends; pinching otherwise holds; not pinching with sm < ON emits nothing. With no hands a live pinch always ends, possibly right after a hold. |
| Hands.ParticleEventOf | src/hands.js:359-369 | The particle event for a pinch event. `Hands.ParticleEventCarriesStrength` states that a start maps to a start, a hold to a hold and an end to an end, with the strength and position the hysteresis sent. |
| Hands.ParticleEventCarriesStrength | src/hands.js:359-376 | The particle field reads a start as a start, a hold as a hold and an end as an end, with the strength and position the hysteresis sent. |
| Hands.AlternatesConcat | src/hands.js:357-378 | Alternating runs compose. |
| Hands.FrameAlternates | src/hands.js:357-378 | Within a frame, starts come only from rest and ends only from a pinch. |
| Hands.RunAlternates | src/hands.js:355-378 | Over any run of frames starts and ends alternate, and with strengths in [0, 1] the smoothed strength stays in [0, 1]. |
| Hands.NoHandsEndsPinch | src/hands.js:355-378 | With no hand in view a live pinch ends in that frame, and no pinch is live afterwards. |
| Hands.HoldThenEnd | src/hands.js:367-378 | A pinch at 0.9 that loses every hand holds and ends in the same frame. |
| Hands.FrameTime | src/hands.js:253 | The frame time lies in [16 ms, 80 ms]. |
| Hands.ScanHands | src/hands.js:256-325 | The hand loop computes the slots and `local` list of `Scan` and the best pinch of `BestPinch`. |
| Hands.Frame | src/hands.js:247-378 | One frame of `onResults` as a function. `Hands.Step` computes it imperatively and `Hands.Tracker.OnResults` applies it. Its properties are stated by `Hands.FrameKeepsRanges`, `Hands.FrameWithoutHands`, `Hands.FrameAlternates` and `Hands.RunAlternates`. |
| Hands.Step | src/hands.js:256-378 | One frame computed imperatively equals the frame function. |
| Hands.FrameKeepsRanges | src/hands.js:330-355 | A frame yields two influences and keeps the smoothed strength and the separation in [0, 1]. |
| Hands.FrameWithoutHands | src/hands.js:256-378 | A frame with no hands: both slots unseen with positions kept, no influences, twoHands off, no pinch, no start, and a live pinch ends. |
| Hands.Tracker.constructor | src/hands.js:20-58 | Module load: not pinching, the smoothed strength 0, both slots fresh, no influences, a zero gesture. |
| Hands.Tracker.OnResults | src/hands.js:247-379 | The new timestamp, slots, influences, gesture, smoothed strength, pinch state and the signals sent are exactly those of one `Frame` over the old state. The class invariant keeps the ranges above. |

## Left out

- The Web Audio graph is left out: node creation, connections, the synth voices (`kickAt`, `snareAt`, `hatAt`, `crashAt`, `triggerKick`'s oscillators and the `triggerHat`/`triggerClap`/`triggerBass`/`setChord` recipes), the noise buffer and reverb impulse, and the limiters. They are calls into a foreign API. Only the parameters the control code writes are kept, as `Bus` records.
- `Bus` keeps only the last recorded ramp (target and end time). A Web Audio parameter keeps a timeline of scheduled events. `holdBreak` adds ramps without cancelling earlier ones, and that history is not modelled.
- `setTimeout`, `setInterval`, `async`/`await` and the `try { … } catch {}` wrappers are left out. Timers are a flag plus an explicit tick call. JavaScript re-entrancy between awaits is not modelled.
- `Math.random` is not modelled. Its draws (step jitter, the open-hat choice) are inputs, and so is the noise buffer's content.
- `Math.pow` in the cutoff and `Math.hypot`/`distanceTo` are function parameters, not interpreted. `noteToHz` is outside the model.
- Arithmetic is on unbounded reals and integers. Floating-point rounding of the JavaScript numbers is not modelled.
- The media element, `getByteFrequencyData`, `ensureAudioReady` and the context resume are left out. The bins of one frame are an input, and "media idle" is a flag.
- The MediaPipe pipeline, the camera, `drawPreview`, the preview canvas and `lastPinchScreen` are left out; they are I/O and DOM.
- The hand scores `opennessScore`, `fingerCurl`, `proximityScore` and the fist formula are left out. The openness and fist scores of a `Hands.Detection` are inputs, because they are built from `Math.hypot` geometry.
- Hands.Tracker.OnResults: the signals are returned in order, not dispatched to `startBreak`/`holdBreak`/`endBreak`; those take the audio clock and the media state. `Hands.ParticleEventOf` maps each signal to the `pinchEvent` argument.
- Hands.SortLocal: the in-place `Array.prototype.sort` is modelled on values, as a stable insertion sort. Stability is not stated as a property.
- Hands.Pick and Techno.PresetNamed: the source's `H[label]` and `PRESETS[name]` also match names inherited from `Object.prototype` (such as "constructor"). The model recognises only the real keys.
- Audio.SafeSet: the default is a finite number, so the `Number.isFinite(v)` guard always holds. Nothing in `src/audio.js` calls `safeSet`.
- `updateParticles` beyond the envelope and shape selection is left out: the radii and breathing, the depth zoom, the follow offset, the axis and torus parameters, the point shrink, and the THREE geometry and shaders. They are vector and trigonometric numerics for rendering.
- `Particles.Field.UpdateEnvelope` takes the shape target's two-hand test from the gesture and the hands list as `updateParticles` receives them. The settings it reads are constants.
- The `window.__audio` debug hook is left out. `window.__getEngineKick` is `Audio.Mixer.ReadEngineKick`, and the envelope behind it is a field of `Audio.Mixer`.
- Techno.RevSendAfterSteps: each clap bump adds 0.03 to the last value the engine wrote. The source reads `revSend.gain.value`, the node's current value, which does not yet show a change booked ahead of the audio clock. Several claps booked in one tick all read the same value there and raise the send once. The model raises it once per clap.
- Audio.Mixer.EngineTick: the callback is run once after the tick when the tick triggered a kick, not once per kick while the tick runs. Every call sets the envelope to 1, so the state after the tick is the same.
- The settings the core reads are constants taken from `src/settings.js`, not a live object. Changing a setting at run time is not modelled.
- `src/scene.js`, `src/ui.js`, `src/main.js` and `src/shaders.js` are not part of this model.

## Findings

| source | as written | input that shows it | evidently intended | confidence | as-written member | corrected member |
|---|---|---|---|---|---|---|
| src/audio.js:302 | `bpmBase * (0.9 + 0.2 * (y01 - 0.5))`: the factor spans 0.8 to 1.0, so the hand can only slow the tempo | y01 = 0.5 (hand centred): 126 BPM becomes 113.4 | `1.0 + 0.2 * (y01 - 0.5)`, the "±10%" the comment names: 0.9 to 1.1, with a centred hand keeping the base tempo | not executed | Audio.BpmFactorAsWrittenOnlySlows | Audio.BpmFactorWithinTenPercent |

The operation model follows the code: `Audio.HandControls`, and through it `Audio.Mixer.RouteHandsToAudio`, compute the tempo with the factor as written. The corrected factor `BpmFactor` is defined beside it, and `Audio.BpmFactorWithinTenPercent` proves the intended ±10% about it.
