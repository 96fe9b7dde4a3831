/** The playback driver as a state machine over values.  A `State` is
    everything the driver reads or writes: the displayed `elapsed`,
    `phase`, `isPlaying` and `isComplete`, the fired-once jump flag, the
    latched start timestamp, whether an animation frame is pending, and
    the current audio controller (if construction succeeded).  The
    transitions are the frame callback, the start action, the effect that
    begins sampling, and unmounting.  The class in module Driver is
    specified by these functions. */
module Playback {
  import opened Timeline
  import opened Wrappers
  import opened Audio

  datatype State = State(
    isPlaying: bool,
    isComplete: bool,
    elapsed: real,      // seconds, as displayed
    phase: Phase,
    jump: bool,         // the climax has been triggered in this run
    start: real,        // frame clock at the start of the run, in ms; 0.0 = not yet latched
    framePending: bool, // a frame callback is requested and not cancelled
    audio: Option<Ctl>)

  /** The component as first rendered. */
  const Initial: State := State(false, false, 0.0, Intro, false, 0.0, false, None)

  /** Elapsed seconds between two frame-clock readings in milliseconds,
      clamped to the length of the run: the smaller of the two. */
  function ElapsedAt(start: real, now: real): (e: real)
    ensures e <= TotalDuration && e <= (now - start) / 1000.0
    ensures e == TotalDuration || e == (now - start) / 1000.0
  {
    var delta := (now - start) / 1000.0;
    if delta < TotalDuration then delta else TotalDuration
  }

  /** The run's start as the frame callback sees it: a start that is
      still unset (zero is falsy) is latched to the current frame. */
  function ClockStart(s: State, now: real): real {
    if s.start == 0.0 then now else s.start
  }

  function TriggerAudio(a: Option<Ctl>): Option<Ctl> {
    if a.Some? then Some(Triggered(a.value)) else None
  }

  function FadeAudio(a: Option<Ctl>): Option<Ctl> {
    if a.Some? then Some(Faded(a.value)) else None
  }

  /** One frame callback at frame time `now`.  Does nothing unless a frame
      is pending.  Otherwise it latches the start, stores the clamped
      elapsed time and its phase, triggers the climax the first time the
      elapsed time reaches 27 s, and either completes (at 30 s: fade out,
      stop playing, request no further frame) or requests the next frame. */
  function Stepped(s: State, now: real): State {
    if !s.framePending then s
    else
      var st := ClockStart(s, now);
      var e := ElapsedAt(st, now);
      var fire := !s.jump && e >= ClimaxStart;
      var a := if fire then TriggerAudio(s.audio) else s.audio;
      var t := s.(start := st, elapsed := e, phase := DeterminePhase(e), jump := s.jump || fire);
      if e >= TotalDuration then
        t.(isComplete := true, isPlaying := false, audio := FadeAudio(a), framePending := false)
      else
        t.(audio := a, framePending := true)
  }

  /** The start action.  Ignored while playing; otherwise clears the jump
      flag, resets the timeline, replaces the controller (by a fresh one
      when construction succeeds, by none when it fails) and starts
      playing.  The old controller is disposed by the caller of this
      transition; see Driver.Experience.StartExperience. */
  function Started(s: State, audioOk: bool): State {
    if s.isPlaying then s
    else
      s.(jump := false, elapsed := 0.0, phase := Intro, isComplete := false,
         audio := if audioOk then Some(Fresh) else None, isPlaying := true)
  }

  /** The effect that runs when `isPlaying` has become true: it records the
      frame clock as the run's start and requests the first frame. */
  function Sampling(s: State, t0: real): State {
    if s.isPlaying then s.(start := t0, framePending := true) else s
  }

  /** Unmounting: the pending frame is cancelled and the controller is
      dropped (after being disposed by the caller). */
  function Unmounted(s: State): State {
    s.(framePending := false, audio := None)
  }

  /** The text shown under the mirror. */
  function Hint(s: State): (h: string)
    requires Coherent(s)
    ensures h == TextCue(DeterminePhase(s.elapsed))
  {
    TextCue(s.phase)
  }

  /** Calls a run's controller has received, given the driver's flags:
      `triggerClimax` once if the jump flag is set, then `fadeOut` once if
      the run is complete. */
  function ExpectedCalls(jump: bool, complete: bool): seq<Call> {
    if jump && complete then [TriggerCall, FadeCall]
    else if jump then [TriggerCall]
    else if complete then [FadeCall]
    else []
  }

  /** The automation those calls schedule. */
  function ExpectedCues(jump: bool, complete: bool): seq<Cue> {
    if jump && complete then [Burst, FadeMaster]
    else if jump then [Burst]
    else if complete then [FadeMaster]
    else []
  }

  /** The current controller has received exactly the calls the flags
      account for. */
  predicate Matches(c: Ctl, jump: bool, complete: bool) {
    && c.hasJump == jump
    && c.calls == ExpectedCalls(jump, complete)
    && c.cues == ExpectedCues(jump, complete)
  }

  /** Such a controller is live, its guard agrees with its cues, and it
      has been told to trigger the climax at most once and to fade out at
      most once. */
  lemma MatchesIsSound(c: Ctl, jump: bool, complete: bool)
    requires Matches(c, jump, complete)
    ensures Sound(c) && Live(c)
    ensures multiset(c.calls)[TriggerCall] == (if jump then 1 else 0)
    ensures multiset(c.calls)[FadeCall] == (if complete then 1 else 0)
  {
  }

  /** The invariant every reachable state satisfies. */
  predicate Coherent(s: State) {
    && s.elapsed <= TotalDuration
    && s.phase == DeterminePhase(s.elapsed)
    && (s.framePending ==> s.isPlaying)
    && !(s.isPlaying && s.isComplete)
    && (s.isComplete ==> s.elapsed == TotalDuration && s.jump)
    && (s.elapsed >= ClimaxStart ==> s.jump)
    && (s.audio.Some? ==> Matches(s.audio.value, s.jump, s.isComplete))
  }

  lemma InitialCoherent()
    ensures Coherent(Initial)
  {
  }

  lemma SteppedCoherent(s: State, now: real)
    requires Coherent(s)
    ensures Coherent(Stepped(s, now))
  {
  }

  lemma StartedCoherent(s: State, audioOk: bool)
    requires Coherent(s)
    ensures Coherent(Started(s, audioOk))
  {
  }

  lemma SamplingCoherent(s: State, t0: real)
    requires Coherent(s)
    ensures Coherent(Sampling(s, t0))
  {
  }

  lemma UnmountedCoherent(s: State)
    requires Coherent(s)
    ensures Coherent(Unmounted(s))
  {
  }

  /** One frame, summarised: a pending frame stores the clamped elapsed
      time and its phase, completes exactly when 30 s are reached, and
      otherwise keeps the completion flag and requests another frame; a
      frame that is not pending changes nothing. */
  lemma StepEffect(s: State, now: real)
    requires Coherent(s)
    ensures !s.framePending ==> Stepped(s, now) == s
    ensures s.framePending ==>
      var r := Stepped(s, now);
      && r.elapsed == ElapsedAt(ClockStart(s, now), now)
      && r.elapsed <= TotalDuration
      && r.phase == DeterminePhase(r.elapsed)
      && (r.isComplete <==> r.elapsed >= TotalDuration)
      && (r.isComplete ==> !r.isPlaying && !r.framePending)
      && (!r.isComplete ==> r.isPlaying && r.framePending)
  {
  }

  /** The jump flag is cleared by the start action and by nothing else. */
  lemma OnlyStartClearsJump(s: State, now: real, t0: real)
    requires s.jump
    ensures Stepped(s, now).jump && Sampling(s, t0).jump && Unmounted(s).jump
  {
  }

  /** The start action is ignored while playing; otherwise it leaves a
      reset, playing run with no jump, and a live fresh controller exactly
      when construction succeeded. */
  lemma StartResets(s: State, audioOk: bool)
    ensures s.isPlaying ==> Started(s, audioOk) == s
    ensures !s.isPlaying ==>
      var r := Started(s, audioOk);
      && r.isPlaying && !r.isComplete && !r.jump
      && r.elapsed == 0.0 && r.phase == Intro
      && (r.audio.Some? <==> audioOk)
      && (audioOk ==> r.audio.value == Fresh)
  {
  }

  // ---------------------------------------------------------------------
  // Runs: the frame callback applied to a sequence of frame times.

  function Run(s: State, frames: seq<real>): State
    decreases |frames|
  {
    if frames == [] then s else Run(Stepped(s, frames[0]), frames[1..])
  }

  /** The phase stored after each frame. */
  function Phases(s: State, frames: seq<real>): (ps: seq<Phase>)
    ensures |ps| == |frames|
    decreases |frames|
  {
    if frames == [] then []
    else [Stepped(s, frames[0]).phase] + Phases(Stepped(s, frames[0]), frames[1..])
  }

  predicate Sorted(frames: seq<real>) {
    forall i, j :: 0 <= i <= j < |frames| ==> frames[i] <= frames[j]
  }

  /** Extending a run by one frame. */
  lemma {:induction false} RunSnoc(s: State, frames: seq<real>, now: real)
    ensures Run(s, frames + [now]) == Stepped(Run(s, frames), now)
    ensures Phases(s, frames + [now]) == Phases(s, frames) + [Stepped(Run(s, frames), now).phase]
    decreases |frames|
  {
    if frames != [] {
      assert (frames + [now])[1..] == frames[1..] + [now];
      RunSnoc(Stepped(s, frames[0]), frames[1..], now);
    } else {
      assert frames + [now] == [now];
    }
  }

  lemma {:induction false} RunCoherent(s: State, frames: seq<real>)
    requires Coherent(s)
    ensures Coherent(Run(s, frames))
    decreases |frames|
  {
    if frames != [] {
      SteppedCoherent(s, frames[0]);
      RunCoherent(Stepped(s, frames[0]), frames[1..]);
    }
  }

  /** Once complete, later frame times change nothing. */
  lemma {:induction false} CompletedIsFinal(s: State, frames: seq<real>)
    requires Coherent(s) && s.isComplete
    ensures Run(s, frames) == s
    decreases |frames|
  {
    if frames != [] {
      CompletedIsFinal(Stepped(s, frames[0]), frames[1..]);
    }
  }

  /** A frame at time `now` has not been overtaken by what `s` already
      shows: the elapsed time it would compute is not below the stored one. */
  predicate Behind(s: State, now: real) {
    s.framePending ==> s.elapsed <= ElapsedAt(ClockStart(s, now), now)
  }

  lemma StepMonotone(s: State, f: real, g: real)
    requires Coherent(s) && Behind(s, f) && f <= g
    ensures Before(s.phase, Stepped(s, f).phase)
    ensures Behind(Stepped(s, f), g)
  {
    if s.framePending {
      PhaseMonotone(s.elapsed, ElapsedAt(ClockStart(s, f), f));
    }
  }

  /** Frame times that do not decrease give phases that do not decrease,
      starting from the phase already shown. */
  lemma {:induction false} PhasesNondecreasing(s: State, frames: seq<real>)
    requires Coherent(s) && Sorted(frames)
    requires frames != [] ==> Behind(s, frames[0])
    ensures forall i, j :: 0 <= i <= j < |frames| ==> Before(Phases(s, frames)[i], Phases(s, frames)[j])
    ensures frames != [] ==> Before(s.phase, Phases(s, frames)[0])
    decreases |frames|
  {
    if frames != [] {
      var t := Stepped(s, frames[0]);
      var rest := frames[1..];
      var g := if rest != [] then rest[0] else frames[0];
      StepMonotone(s, frames[0], g);
      SteppedCoherent(s, frames[0]);
      PhasesNondecreasing(t, rest);
      var ps := Phases(s, frames);
      assert ps == [t.phase] + Phases(t, rest);
      forall i, j | 0 <= i <= j < |frames|
        ensures Before(ps[i], ps[j])
      {
        if 0 < i {
          assert ps[i] == Phases(t, rest)[i - 1] && ps[j] == Phases(t, rest)[j - 1];
        } else if 0 < j {
          assert ps[j] == Phases(t, rest)[j - 1];
        }
      }
    }
  }

  /** The first run state after the start action and the sampling effect
      is behind every frame time from the sampling instant on. */
  lemma StartedIsBehind(s: State, audioOk: bool, t0: real, now: real)
    requires !s.isPlaying && t0 <= now
    ensures Behind(Sampling(Started(s, audioOk), t0), now)
  {
  }

  /** After any frame, no later frame time is behind the state it left:
      the start is latched, and a later frame computes an elapsed time no
      smaller than the stored one. */
  lemma SteppedIsBehind(s: State, f: real, g: real)
    requires f <= g
    ensures Behind(Stepped(s, f), g)
  {
  }

  /** Frame times that do not decrease give phases that do not decrease,
      whatever the state the first frame finds: the first frame may come
      before the recorded start (a negative delta shows the intro), and
      every later frame is measured from the start it latched. */
  lemma {:induction false} PhasesNondecreasingFromAnyFrame(s: State, frames: seq<real>)
    requires Coherent(s) && Sorted(frames)
    ensures forall i, j :: 0 <= i <= j < |frames| ==> Before(Phases(s, frames)[i], Phases(s, frames)[j])
  {
    if frames != [] {
      var t := Stepped(s, frames[0]);
      var rest := frames[1..];
      SteppedCoherent(s, frames[0]);
      if rest != [] {
        SteppedIsBehind(s, frames[0], rest[0]);
      }
      assert Sorted(rest) by {
        forall i, j | 0 <= i <= j < |rest| ensures rest[i] <= rest[j] {
          assert rest[i] == frames[i + 1] && rest[j] == frames[j + 1];
        }
      }
      PhasesNondecreasing(t, rest);
      var ps := Phases(s, frames);
      assert ps == [t.phase] + Phases(t, rest);
      forall i, j | 0 <= i <= j < |frames|
        ensures Before(ps[i], ps[j])
      {
        if 0 < i {
          assert ps[i] == Phases(t, rest)[i - 1] && ps[j] == Phases(t, rest)[j - 1];
        } else if 0 < j {
          assert ps[j] == Phases(t, rest)[j - 1];
        }
      }
    }
  }

  /** A run whose start is latched: the climax has been triggered by the
      end exactly when some frame came 27 s or more after the start, and
      the run is complete exactly when some frame came 30 s or more after
      it (frames after completion are ignored). */
  lemma {:induction false} RunThresholds(s: State, frames: seq<real>)
    requires Coherent(s) && s.framePending && s.start != 0.0 && !s.jump
    ensures Run(s, frames).jump <==>
      exists i :: 0 <= i < |frames| && (frames[i] - s.start) / 1000.0 >= ClimaxStart
    ensures Run(s, frames).isComplete <==>
      exists i :: 0 <= i < |frames| && (frames[i] - s.start) / 1000.0 >= TotalDuration
    decreases |frames|
  {
    if frames != [] {
      var t := Stepped(s, frames[0]);
      var rest := frames[1..];
      SteppedCoherent(s, frames[0]);
      assert forall i :: 0 < i < |frames| ==> frames[i] == rest[i - 1];
      if t.isComplete {
        CompletedIsFinal(t, rest);
      } else if t.jump {
        RunJumpSticks(t, rest);
        RunCompletion(t, rest);
      } else {
        RunThresholds(t, rest);
      }
    }
  }

  /** Frames never clear the jump flag. */
  lemma {:induction false} RunJumpSticks(s: State, frames: seq<real>)
    requires s.jump
    ensures Run(s, frames).jump
    decreases |frames|
  {
    if frames != [] {
      RunJumpSticks(Stepped(s, frames[0]), frames[1..]);
    }
  }

  /** With the start latched, the run completes exactly when some frame
      comes 30 s or more after the start. */
  lemma {:induction false} RunCompletion(s: State, frames: seq<real>)
    requires Coherent(s) && s.framePending && s.start != 0.0
    ensures Run(s, frames).isComplete <==>
      exists i :: 0 <= i < |frames| && (frames[i] - s.start) / 1000.0 >= TotalDuration
    decreases |frames|
  {
    if frames != [] {
      var t := Stepped(s, frames[0]);
      var rest := frames[1..];
      SteppedCoherent(s, frames[0]);
      assert forall i :: 0 < i < |frames| ==> frames[i] == rest[i - 1];
      if t.isComplete {
        CompletedIsFinal(t, rest);
      } else {
        RunCompletion(t, rest);
      }
    }
  }

  /** The frames of a concrete run whose sampling starts at frame time
      1000 ms: one just below and one at each threshold. */
  const EarlyFrames: seq<real> := [1000.0, 10900.0, 11000.0, 20900.0, 21000.0, 27900.0]
  const LateFrames: seq<real> := [28000.0, 30900.0, 31000.0]

  /** The concrete run walks through the whole cue sheet; the controller
      receives the climax at the 27 s frame and the fade-out at the 30 s
      frame, and the run then stops with everything it did recorded. */
  lemma ScriptedRun()
    ensures var s0 := Sampling(Started(Initial, true), 1000.0);
      && Phases(s0, EarlyFrames + LateFrames) ==
         [Intro, Intro, Reveal, Reveal, Escalation, Escalation, Climax, Climax, After]
      && Run(s0, EarlyFrames).audio == Some(Fresh)
      && Run(s0, EarlyFrames + LateFrames[..1]).audio == Some(Ctl(true, [TriggerCall], [Burst]))
      && Run(s0, EarlyFrames + LateFrames) ==
         State(false, true, TotalDuration, After, true, 1000.0, false,
               Some(Ctl(true, [TriggerCall, FadeCall], [Burst, FadeMaster])))
  {
    var s0 := Sampling(Started(Initial, true), 1000.0);
    ScriptedEarly();
    ScriptedLate();
    PhasesAppend(s0, EarlyFrames, LateFrames);
    RunAppend(s0, EarlyFrames, LateFrames[..1]);
    RunAppend(s0, EarlyFrames, LateFrames);
  }

  /** The state of the concrete run after its 26.9 s frame. */
  const BeforeClimax: State := State(true, false, 26.9, Escalation, false, 1000.0, true, Some(Fresh))

  lemma ScriptedEarly()
    ensures var s0 := Sampling(Started(Initial, true), 1000.0);
      && Run(s0, EarlyFrames) == BeforeClimax
      && Phases(s0, EarlyFrames) == [Intro, Intro, Reveal, Reveal, Escalation, Escalation]
  {
    var s0 := Sampling(Started(Initial, true), 1000.0);
    var s1 := Stepped(s0, 1000.0);
    assert s1.elapsed == 0.0 && s1.phase == Intro;
    var s2 := Stepped(s1, 10900.0);
    assert s2.elapsed == 9.9 && s2.phase == Intro;
    var s3 := Stepped(s2, 11000.0);
    assert s3.elapsed == 10.0 && s3.phase == Reveal;
    var s4 := Stepped(s3, 20900.0);
    assert s4.elapsed == 19.9 && s4.phase == Reveal;
    var s5 := Stepped(s4, 21000.0);
    assert s5.elapsed == 20.0 && s5.phase == Escalation;
    var s6 := Stepped(s5, 27900.0);
    assert s6 == BeforeClimax;
  }

  lemma ScriptedLate()
    ensures Run(BeforeClimax, LateFrames[..1]).audio == Some(Ctl(true, [TriggerCall], [Burst]))
    ensures Run(BeforeClimax, LateFrames[..2]).audio == Some(Ctl(true, [TriggerCall], [Burst]))
    ensures !Run(BeforeClimax, LateFrames[..2]).isComplete
    ensures Run(BeforeClimax, LateFrames) ==
      State(false, true, TotalDuration, After, true, 1000.0, false,
            Some(Ctl(true, [TriggerCall, FadeCall], [Burst, FadeMaster])))
    ensures Phases(BeforeClimax, LateFrames) == [Climax, Climax, After]
  {
    var s7 := Stepped(BeforeClimax, 28000.0);
    assert Triggered(Fresh).calls == [] + [TriggerCall] == [TriggerCall];
    assert Triggered(Fresh).cues == [] + [Burst] == [Burst];
    assert s7.elapsed == 27.0 && s7.audio == Some(Ctl(true, [TriggerCall], [Burst]));
    var s8 := Stepped(s7, 30900.0);
    assert s8.elapsed == 29.9 && s8.phase == Climax && s8.framePending;
    assert LateFrames[..2] == [28000.0, 30900.0];
    assert Run(s7, [30900.0]) == s8 by {
      assert [30900.0][1..] == [];
    }
    assert Run(BeforeClimax, [28000.0, 30900.0]) == s8 by {
      assert [28000.0, 30900.0][1..] == [30900.0];
    }
    assert s8.audio == s7.audio && !s8.isComplete;
    var s9 := Stepped(s8, 31000.0);
    assert Faded(Ctl(true, [TriggerCall], [Burst])).calls == [TriggerCall] + [FadeCall] == [TriggerCall, FadeCall];
    assert Faded(Ctl(true, [TriggerCall], [Burst])).cues == [Burst] + [FadeMaster] == [Burst, FadeMaster];
    assert s9.elapsed == 30.0 && s9.audio == FadeAudio(s8.audio);
  }

  lemma {:induction false} RunAppend(s: State, xs: seq<real>, ys: seq<real>)
    ensures Run(s, xs + ys) == Run(Run(s, xs), ys)
    decreases |xs|
  {
    if xs == [] {
      assert xs + ys == ys;
    } else {
      assert (xs + ys)[1..] == xs[1..] + ys;
      RunAppend(Stepped(s, xs[0]), xs[1..], ys);
    }
  }

  lemma {:induction false} PhasesAppend(s: State, xs: seq<real>, ys: seq<real>)
    ensures Phases(s, xs + ys) == Phases(s, xs) + Phases(Run(s, xs), ys)
    decreases |xs|
  {
    if xs == [] {
      assert xs + ys == ys;
    } else {
      assert (xs + ys)[1..] == xs[1..] + ys;
      PhasesAppend(Stepped(s, xs[0]), xs[1..], ys);
    }
  }
}
