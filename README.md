# Mirror horror experience: playback timeline and driver

The page is a 30-second horror short in the browser. A click on the mirror
starts a run. While it runs, an animation-frame loop measures the elapsed
time and maps it onto five narrative phases: intro, reveal, escalation,
climax and after. Each phase has a hint text. Audio is synthesised in the
page: the climax fires the jump-scare burst once, at 27 s. At 30 s the run
completes, the audio fades out and a "watch again" button appears.

This project models that playback core: the cue sheet, the frame-loop state
machine, the start action, the unmount cleanup, and the once-only guard of
the audio controller. It proves the properties the component relies on.

- `timeline.dfy` (module `Timeline`): the phases, the 27 s and 30 s
  constants, `DeterminePhase` and the hint table.
- `audio.dfy` (module `Audio`): the audio controller seen from the driver.
  A class `AudioController` records the calls it receives and the
  automation it schedules: the burst, the master fade and the stop of the
  sources. It keeps the `hasJump` guard. The value `Ctl` of a controller
  and the pure operations `Triggered`, `Faded` and `Disposed` specify its
  methods.
- `playback.dfy` (module `Playback`): the driver as a state machine over
  values. `State` holds the React state, the refs and the pending frame.
  The transitions are `Stepped` (the frame callback), `Started` (the start
  action), `Sampling` (the effect that begins the loop) and `Unmounted`.
  `Coherent` is the invariant they all keep; it ties the current
  controller's call history to the driver's flags. This module also holds
  the lemmas about runs: sequences of frame times.
- `driver.dfy` (module `Driver`): the component as a class `Experience`.
  Its fields are the state and refs; `audio` is a reference to an
  `AudioController`. Each method's new state is the matching `Playback`
  transition of its old state. A ghost set `retired` holds every
  controller the component has let go of, and `Valid` says all of them are
  disposed. So at most one controller is live: the current one.
- `reentry.dfy` (module `Reentry`): the start action with its `await`
  given its real two-step shape. The Findings section below explains why.

Time is a mathematical real. Frame times are in milliseconds, as the frame
clock gives them. Elapsed time is in seconds:
`elapsed = min((now - start) / 1000, 30)`. The source's falsy test
`!startRef.current` becomes `start == 0.0`.

## Model

| member | source | states |
|---|---|---|
| Timeline.DeterminePhase | app/page.tsx:12-18 | Each phase holds exactly on its half-open interval: intro below 10 s, reveal on [10, 20), escalation on [20, 27), climax on [27, 30), after from 30 s on. Every ensures is an iff. |
| Timeline.PhaseMonotone | app/page.tsx:12-18 | A later time never gives an earlier phase. |
| Timeline.ThresholdsResolveUpward | app/page.tsx:12-18 | A time equal to a threshold belongs to the later phase. For every eps in (0, 1], the threshold minus eps is still in the phase just before. |
| Timeline.TextCue | app/page.tsx:20-26 | The fixed hint for each phase, and every hint is non-empty. |
| Timeline.CuesDistinct | app/page.tsx:20-26 | Distinct phases have distinct hints, so the hint identifies the phase. |
| Audio.Triggered | app/page.tsx:130-170 | `triggerClimax` on a controller's value: a no-op on the graph once `hasJump` is set. `ReceiveKeepsSound`, `TriggerIdempotent` and `BurstAtMostOnce` specify it. |
| Audio.Faded | app/page.tsx:172-176 | `fadeOut` on a controller's value: the master-gain ramp to silence. `ReceiveKeepsSound` specifies it. |
| Audio.Disposed | app/page.tsx:178-195 | `dispose` on a controller's value: stop the sources, clean up the creaks, then fade out. `ReceiveKeepsSound` specifies that it ends the controller's life. |
| Audio.ReceiveKeepsSound | app/page.tsx:128-195 | Each controller operation appends its call to the history and keeps the guard consistent with the cues: one burst if `hasJump` is set, none otherwise. Only `triggerClimax` sets the guard, and it schedules a burst only when the guard was clear. Only `dispose` ends the controller's life. |
| Audio.TriggerIdempotent | app/page.tsx:130-132 | A second `triggerClimax` changes neither the guard nor the scheduled automation. |
| Audio.BurstAtMostOnce | app/page.tsx:128-132 | After any sequence of calls, the controller has recorded exactly those calls and its guard is still consistent with its cues. The guard is set exactly when it was already set or a `triggerClimax` was among the calls. |
| Audio.FreshBurstCount | app/page.tsx:128-132 | For a fresh controller, the number of bursts after any sequence of calls is 1 if `triggerClimax` was called and 0 otherwise. |
| Audio.AudioController.constructor | app/page.tsx:197-201 | A new controller has a clear guard (line 128), no calls and no cues. |
| Audio.AudioController.TriggerClimax | app/page.tsx:130-170 | The new value is `Triggered` of the old one; the Audio lemmas above state its guard behaviour. |
| Audio.AudioController.FadeOut | app/page.tsx:172-176 | The new value is `Faded` of the old one: the call is recorded and a master fade is scheduled. |
| Audio.AudioController.Dispose | app/page.tsx:178-195 | The new value is `Disposed` of the old one: the sources and creaks are stopped, then the same fade as `fadeOut` runs. |
| Playback.ClockStart | app/page.tsx:233 | The start the frame callback uses: the latched one, or the current frame time if none is latched (zero is falsy). Specified through `StepEffect` and `SteppedIsBehind`. |
| Playback.TriggerAudio | app/page.tsx:241 | `audioRef.current?.triggerClimax()` on the value: `Triggered` applied to the controller if there is one. Specified through `Audio.ReceiveKeepsSound` and `MatchesIsSound`. |
| Playback.FadeAudio | app/page.tsx:248 | `audioRef.current?.fadeOut()` on the value: `Faded` applied to the controller if there is one. Specified through `Audio.ReceiveKeepsSound` and `MatchesIsSound`. |
| Playback.Stepped | app/page.tsx:231-253 | The frame callback as a transition. `StepEffect` states its effect, `SteppedCoherent` the invariant it keeps, and `RunThresholds`, `RunCompletion` and `PhasesNondecreasing` its behaviour over runs. `Driver.Experience.Step` implements it. |
| Playback.Started | app/page.tsx:268-282 | The start action as a transition. `StartResets` states its effect and `StartedCoherent` the invariant it keeps. `Driver.Experience.StartExperience` implements it. |
| Playback.Sampling | app/page.tsx:223-255 | The effect on `isPlaying` as a transition. `SamplingCoherent` and `StartedIsBehind` specify it. `Driver.Experience.BeginSampling` implements it. |
| Playback.Unmounted | app/page.tsx:215-221 | The unmount cleanup as a transition. `UnmountedCoherent` and `OnlyStartClearsJump` specify it. `Driver.Experience.Unmount` implements it. |
| Playback.ElapsedAt | app/page.tsx:234-235 | The elapsed time is at most both 30 s and the raw delta, and equals one of them; that is, it is their minimum. |
| Playback.Hint | app/page.tsx:284 | In every coherent state, the hint shown is the cue of the phase that the stored elapsed time determines. |
| Playback.MatchesIsSound | app/page.tsx:240-249 | A controller whose history matches the driver's flags is live and consistent. It has received `triggerClimax` once if the jump flag is set (else never), and `fadeOut` once if the run is complete (else never). |
| Playback.InitialCoherent | app/page.tsx:205-213 | The first render is coherent. |
| Playback.SteppedCoherent | app/page.tsx:231-253 | The frame callback keeps the invariant. The stored phase is that of the stored elapsed time (at most 30 s). A pending frame implies playing, and the run is never both playing and complete. Completion means 30 s and the jump fired; 27 s or more means the jump fired. The controller's history is exactly what these flags account for. |
| Playback.StartedCoherent | app/page.tsx:268-282 | The start action keeps the invariant. |
| Playback.SamplingCoherent | app/page.tsx:223-255 | The sampling effect keeps the invariant. |
| Playback.UnmountedCoherent | app/page.tsx:215-221 | The unmount cleanup keeps the invariant. |
| Playback.StepEffect | app/page.tsx:231-253 | A frame that is not pending changes nothing. A pending frame stores the clamped elapsed time and its phase. It completes exactly when 30 s is reached: then it stops playing and requests no frame. Otherwise it keeps playing and requests the next frame. |
| Playback.OnlyStartClearsJump | app/page.tsx:240-243 | Neither the frame callback, the sampling effect nor unmounting clears the jump flag; only the start action does (line 270). |
| Playback.StartResets | app/page.tsx:268-282 | While playing, the start action changes nothing. Otherwise it leaves a playing, incomplete run at 0 s in the intro with the jump flag clear. A controller is present exactly when construction succeeded, and then it is fresh. |
| Playback.RunCoherent | app/page.tsx:231-253 | Any sequence of frames keeps the invariant. |
| Playback.CompletedIsFinal | app/page.tsx:245-250 | Once complete, later frames change nothing. |
| Playback.PhasesNondecreasing | app/page.tsx:231-253 | Frame times that do not decrease, none earlier than what is already shown, give phases that never go backwards, starting from the phase already displayed. |
| Playback.SteppedIsBehind | app/page.tsx:233-235 | After any frame, whatever state it found, a frame at the same time or later computes an elapsed time no smaller than the one stored: the start is latched by then. |
| Playback.PhasesNondecreasingFromAnyFrame | app/page.tsx:231-253 | Non-decreasing frame times give phases that never go backwards from any coherent state. The first frame may come before the recorded start: it shows intro for a negative delta, and the run goes on. |
| Playback.StartedIsBehind | app/page.tsx:223-234 | After the start action and the sampling effect at time t0, every frame time from t0 on computes an elapsed time no smaller than the stored one. |
| Playback.RunThresholds | app/page.tsx:233-250 | Take a latched run without the jump. By the end of the frames the jump has fired exactly when some frame came 27 s or more after the start. The run is complete exactly when some frame came 30 s or more after it. |
| Playback.RunJumpSticks | app/page.tsx:240-243 | Frames never clear the jump flag. |
| Playback.RunCompletion | app/page.tsx:245-252 | With the start latched, the run completes exactly when some frame comes 30 s or more after the start. |
| Playback.ScriptedEarly | app/page.tsx:223-253 | Frames from 0 s to 26.9 s show intro, intro, reveal, reveal, escalation, escalation. Their end state has no jump and an untouched controller. |
| Playback.ScriptedLate | app/page.tsx:240-250 | The 27 s frame triggers the climax. After the 29.9 s frame the controller still holds only that call and the run is not complete. The 30 s frame fades out and completes the run. The phases are climax, climax, after. |
| Playback.ScriptedRun | app/page.tsx:223-282 | A whole concrete run shows all five phases in order. Its controller receives exactly `triggerClimax` then `fadeOut` (one burst, one fade), and the run ends complete, not playing, with no frame pending. |
| Driver.Experience.constructor | app/page.tsx:205-213 | The component as first rendered: the initial state, no controller and nothing retired. |
| Driver.Experience.Step | app/page.tsx:231-253 | The frame callback: the new state is `Stepped` of the old one, it keeps `Valid`, and the controller reference is unchanged. |
| Driver.Experience.TriggerCurrent | app/page.tsx:241 | `audioRef.current?.triggerClimax()` applies `Triggered` to the current controller, if there is one, and disturbs no retired controller. |
| Driver.Experience.FadeCurrent | app/page.tsx:248 | `audioRef.current?.fadeOut()` applies `Faded` to the current controller, if there is one. |
| Driver.Experience.DisposeCurrent | app/page.tsx:274 | `audioRef.current?.dispose()` (also line 218) disposes the current controller, after which it can join the retired ones. |
| Driver.Experience.StartExperience | app/page.tsx:268-282 | The new state is `Started` of the old one, and `Valid` is kept. While playing, nothing changes. Otherwise the old controller is disposed and retired, and a new controller is allocated exactly when construction succeeds. |
| Driver.Experience.BeginSampling | app/page.tsx:223-255 | The effect: when playing, it latches the start at t0 and requests the first frame; otherwise it does nothing. |
| Driver.Experience.Unmount | app/page.tsx:215-221 | The cleanup cancels the frame and disposes and drops the controller. Afterwards every controller ever created is disposed. |
| Driver.Experience.Play | app/page.tsx:252-255 | Delivering frames in order gives the state `Run` of the old state and returns exactly the phases that `Phases` predicts. |
| Driver.Session | app/page.tsx:223-282 | One whole run from a fresh component, for any non-decreasing frame times, including a first frame earlier than the sampling instant. The phases shown never go backwards. A controller exists exactly when construction succeeded; it is live, has received `triggerClimax` at most once and has scheduled at most one burst. |
| Driver.Rewatch | app/page.tsx:268-282 | "Watch again" on a component that is not playing: the previous run's controller is now retired and disposed, and every controller but the new one is disposed. A new controller exists exactly when construction succeeded, and it is fresh and live. The new run's phases never go backwards. |
| Reentry.DisposeCurrent | app/page.tsx:274 | Disposing the current controller leaves none live when at most one was. |
| Reentry.Click | app/page.tsx:268-274 | As written: the part of `startExperience` before the `await`, guarded by `isPlaying` only. `DoubleClickLeaks` and `GuardAgreesWhenIdle` are about it. |
| Reentry.Resume | app/page.tsx:275-281 | As written: the end of the wait installs the new controller (or none) and starts playing, whatever happened meanwhile. `DoubleClickLeaks` and `UnmountDuringWaitLeaks` are about it. |
| Reentry.Complete | app/page.tsx:245-249 | The completing frame: fade out the current controller and stop playing. `CompleteSafe` specifies it. |
| Reentry.Unmount | app/page.tsx:215-221 | The cleanup: dispose the current controller and drop it. `UnmountSafe` and `UnmountDuringWaitLeaks` are about it. |
| Reentry.ClickGuarded | app/page.tsx:268-274 | Corrected click: also ignored while a start is waiting. `ClickGuardedSafe` and `GuardAgreesWhenIdle` specify it. |
| Reentry.ResumeGuarded | app/page.tsx:275-281 | Corrected end of the wait: a controller that arrives after unmounting is disposed at once. `ResumeGuardedSafe` and `GuardAgreesWhenIdle` specify it. |
| Reentry.DoubleClickLeaks | app/page.tsx:268-282 | As written: two clicks, then both waits ending, leave two live controllers. The first is no longer referenced. |
| Reentry.UnmountDuringWaitLeaks | app/page.tsx:268-282 | As written: an unmount during the wait leaves a live controller on an unmounted component. |
| Reentry.MountedSafe | app/page.tsx:205-213 | A freshly mounted component satisfies the corrected invariant. |
| Reentry.ClickGuardedSafe | app/page.tsx:268-274 | The corrected click keeps the invariant: at most one start waits, no controller is live during the wait or after unmounting, and otherwise only the current one may be. |
| Reentry.ResumeGuardedSafe | app/page.tsx:275-281 | The corrected end of the wait keeps the invariant. |
| Reentry.UnmountSafe | app/page.tsx:215-221 | The unmount cleanup keeps the invariant. |
| Reentry.CompleteSafe | app/page.tsx:245-249 | Completing the run (fade out, stop playing and so offer the restart) keeps the invariant. |
| Reentry.SafeStep | app/page.tsx:215-282 | Any single event keeps the invariant. |
| Reentry.ReplayGuardedSafe | app/page.tsx:215-282 | Any sequence of clicks, wait endings, completions and unmounts leaves at most one live controller, and none once unmounted. |
| Reentry.GuardAgreesWhenIdle | app/page.tsx:268-282 | With no start waiting, the corrected start behaves exactly like the written one. So the atomic start action of `Driver` is the corrected behaviour. |

## Left out

- The Web Audio graph is not modelled, only the calls and the automation scheduled in response. That covers the oscillators, gains and ramps, the noise and scream buffers, the creak scheduling and the timed `ctx.close()`. `Math.random` noise is left out too.
- `getAudioContextConstructor` and the construction of the controller become the boolean `audioOk`: whether construction succeeded. The `console.error` on failure is left out.
- `requestAnimationFrame`, `cancelAnimationFrame` and `performance.now()` are modelled by the `framePending` flag, explicit frame times, and the sampling instant `t0` passed as parameters.
- The effect's local `mounted` flag and its cleanup when `isPlaying` changes are not modelled separately. The cleanup runs only when the loop has already stopped (completion sets `framePending` to false) or when the component unmounts (`Unmount`), so both are covered by `framePending`.
- Rendering is not modelled: the CSS phases, the progress-bar percentage (`timelinePercent`), the buttons' visibility and the font. The shell in `app/layout.tsx` is not part of this model.
- The batching of React state updates is not modelled. Each handler's updates are applied at once, as they are seen at the next render.
- Driver.Experience.StartExperience: treats the `await` of construction as atomic. The interleavings it allows are modelled separately in `Reentry`; see Findings.
- Floating point is not modelled: time is a mathematical real, so rounding, `NaN` and infinite frame times are not covered.

## Findings

| source | as written | input that shows it | evidently intended | confidence | as-written member | corrected member |
|---|---|---|---|---|---|---|
| app/page.tsx:268-282 | `startExperience` sets `isPlaying` only after `await createAudioController()`, and the guard on line 269 tests only `isPlaying`. | Two clicks on the start button before the first audio context has resumed: both pass the guard and both build a controller. The second overwrites `audioRef.current` without disposing the first, so two soundtracks play. | At most one live controller, the one `audioRef` holds: a second click during the wait is ignored. | not executed | Reentry.DoubleClickLeaks | Reentry.ReplayGuardedSafe |
| app/page.tsx:215-282 | The unmount cleanup (lines 215-221) disposes only the controller held at that moment, and the pending `await` on line 276 still installs its controller afterwards. | Click, then unmount before the audio context resumes: the new controller is installed on an unmounted component and is never disposed. | No controller is live after unmounting: a controller that arrives after unmounting is disposed at once. | not executed | Reentry.UnmountDuringWaitLeaks | Reentry.ReplayGuardedSafe |
