/** The component's mutable state and its event handlers: React state
    (`isPlaying`, `elapsed`, `phase`, `isComplete`) and refs (`jumpRef`,
    `startRef`, `audioRef`, and the pending frame behind `frameRef`) are
    fields of one object, and each handler is a method whose effect is
    the matching transition of module Playback. */
module Driver {
  import opened Timeline
  import opened Wrappers
  import opened Audio
  import opened Playback

  /** Every controller in `cs` has been disposed. */
  ghost predicate AllDisposed(cs: set<AudioController>)
    reads cs
  {
    forall c :: c in cs ==> !Live(c.Snapshot())
  }

  class Experience {
    var isPlaying: bool
    var isComplete: bool
    var elapsed: real
    var phase: Phase
    var jump: bool
    var start: real
    var framePending: bool
    var audio: AudioController?

    /** Every controller this component created and no longer holds. */
    ghost var retired: set<AudioController>

    /** The value of the driver, with the current controller's record. */
    function Snapshot(): State
      reads this, audio
    {
      State(isPlaying, isComplete, elapsed, phase, jump, start, framePending,
            if audio == null then None else Some(audio.Snapshot()))
    }

    /** The driver's state is coherent and every controller but the
        current one has been disposed; the current one is live
        (Coherent includes Live), so at most one live controller exists. */
    ghost predicate Valid()
      reads this, audio, retired
    {
      && Coherent(Snapshot())
      && (audio != null ==> audio !in retired)
      && AllDisposed(retired)
    }

    constructor ()
      ensures Valid() && Snapshot() == Initial && retired == {}
    {
      isPlaying, isComplete, elapsed, phase := false, false, 0.0, Intro;
      jump, start, framePending, audio := false, 0.0, false, null;
      retired := {};
    }

    /** The frame callback `step(now)`. */
    method Step(now: real)
      requires Valid()
      modifies this, audio
      ensures Valid()
      ensures Snapshot() == Stepped(old(Snapshot()), now)
      ensures audio == old(audio) && retired == old(retired)
    {
      ghost var s := Snapshot();
      if !framePending {
        return;
      }
      if start == 0.0 {
        start := now;
      }
      var delta := (now - start) / 1000.0;
      var nextElapsed := if delta < TotalDuration then delta else TotalDuration;
      elapsed, phase := nextElapsed, DeterminePhase(nextElapsed);
      if !jump && nextElapsed >= ClimaxStart {
        TriggerCurrent();
        jump := true;
      }
      if nextElapsed >= TotalDuration {
        isComplete, isPlaying := true, false;
        FadeCurrent();
        framePending := false;
        assert Snapshot() == Stepped(s, now);
        SteppedCoherent(s, now);
        return;
      }
      framePending := true;
      assert Snapshot() == Stepped(s, now);
      SteppedCoherent(s, now);
    }

    /** `audioRef.current?.triggerClimax()`. */
    method TriggerCurrent()
      requires audio !in retired && AllDisposed(retired)
      modifies audio
      ensures audio == null || audio.Snapshot() == Triggered(old(audio.Snapshot()))
      ensures AllDisposed(retired)
    {
      if audio != null {
        audio.TriggerClimax();
      }
    }

    /** `audioRef.current?.fadeOut()`. */
    method FadeCurrent()
      requires audio !in retired && AllDisposed(retired)
      modifies audio
      ensures audio == null || audio.Snapshot() == Faded(old(audio.Snapshot()))
      ensures AllDisposed(retired)
    {
      if audio != null {
        audio.FadeOut();
      }
    }

    /** `audioRef.current?.dispose()`: afterwards every controller the
        component has let go of, or is about to, is disposed. */
    method DisposeCurrent()
      requires audio !in retired && AllDisposed(retired)
      modifies audio
      ensures audio == null || audio.Snapshot() == Disposed(old(audio.Snapshot()))
      ensures AllDisposed(retired + if audio == null then {} else {audio})
    {
      if audio != null {
        audio.Dispose();
      }
    }

    /** The start action `startExperience`, with the outcome of
        constructing the audio controller given as `audioOk`. */
    method StartExperience(audioOk: bool)
      requires Valid()
      modifies this, audio
      ensures Valid()
      ensures Snapshot() == Started(old(Snapshot()), audioOk)
      ensures old(isPlaying) ==> audio == old(audio)
      ensures retired == old(retired) + (if old(isPlaying) || old(audio) == null then {} else {old(audio)})
      ensures !old(isPlaying) && old(audio) != null ==>
        old(audio).Snapshot() == Disposed(old(audio.Snapshot()))
      ensures !old(isPlaying) ==> (audio != null <==> audioOk) && (audio != null ==> fresh(audio))
    {
      StartedCoherent(Snapshot(), audioOk);
      if isPlaying {
        return;
      }
      jump := false;
      elapsed := 0.0;
      phase := Intro;
      isComplete := false;
      var prev := audio;
      DisposeCurrent();
      if prev != null {
        retired := retired + {prev};
      }
      ghost var record := if prev == null then Fresh else prev.Snapshot();
      if audioOk {
        audio := new AudioController();
      } else {
        audio := null;
      }
      isPlaying := true;
      assert prev != null ==> prev.Snapshot() == record;
    }

    /** The effect that runs when `isPlaying` changes: when it is true,
        it records the frame clock `t0` as the start and requests the
        first frame. */
    method BeginSampling(t0: real)
      requires Valid()
      modifies this
      ensures Valid()
      ensures Snapshot() == Sampling(old(Snapshot()), t0)
      ensures audio == old(audio) && retired == old(retired)
    {
      SamplingCoherent(Snapshot(), t0);
      if !isPlaying {
        return;
      }
      start := t0;
      framePending := true;
    }

    /** The unmount cleanup: cancel the pending frame and dispose and drop
        the controller. */
    method Unmount()
      requires Valid()
      modifies this, audio
      ensures Valid()
      ensures Snapshot() == Unmounted(old(Snapshot()))
      ensures audio == null
      ensures old(audio) != null ==>
        old(audio) in retired && old(audio).Snapshot() == Disposed(old(audio.Snapshot()))
      ensures retired == old(retired) + (if old(audio) == null then {} else {old(audio)})
    {
      UnmountedCoherent(Snapshot());
      framePending := false;
      DisposeCurrent();
      if audio != null {
        retired := retired + {audio};
      }
      audio := null;
    }

    /** The display loop delivering the frame times `frames` in order;
        returns the phase shown after each. */
    method Play(frames: seq<real>) returns (shown: seq<Phase>)
      requires Valid()
      modifies this, audio
      ensures Valid()
      ensures Snapshot() == Run(old(Snapshot()), frames)
      ensures shown == Phases(old(Snapshot()), frames)
      ensures audio == old(audio) && retired == old(retired)
    {
      ghost var s0 := Snapshot();
      shown := [];
      var i := 0;
      while i < |frames|
        invariant 0 <= i <= |frames|
        invariant Valid()
        invariant audio == old(audio) && retired == old(retired)
        invariant Snapshot() == Run(s0, frames[..i])
        invariant shown == Phases(s0, frames[..i])
      {
        RunSnoc(s0, frames[..i], frames[i]);
        assert frames[..i + 1] == frames[..i] + [frames[i]];
        Step(frames[i]);
        shown := shown + [phase];
        i := i + 1;
      }
      assert frames[..i] == frames;
    }
  }

  /** One whole run from a fresh component: start, the sampling effect at
      frame time `t0`, then the frames.  When the frame times do not
      decrease, the phases shown do not decrease, and the controller (if
      construction succeeded) is live, has been told to trigger the climax
      at most once and has scheduled at most one burst. */
  method Session(audioOk: bool, t0: real, frames: seq<real>)
    returns (e: Experience, shown: seq<Phase>)
    requires Sorted(frames)
    ensures e.Valid()
    ensures forall i, j :: 0 <= i <= j < |shown| ==> Before(shown[i], shown[j])
    ensures e.audio != null <==> audioOk
    ensures e.audio != null ==> multiset(e.audio.calls)[TriggerCall] <= 1
    ensures e.audio != null ==> Bursts(e.audio.Snapshot()) <= 1 && Live(e.audio.Snapshot())
  {
    e := new Experience();
    e.StartExperience(audioOk);
    e.BeginSampling(t0);
    PhasesNondecreasingFromAnyFrame(e.Snapshot(), frames);
    shown := e.Play(frames);
  }

  /** "Watch again": a further run of a component that is not playing.
      The controller of the previous run is disposed and retired, so
      every controller but the new one is disposed, and the new run shows
      phases that do not decrease. */
  method Rewatch(e: Experience, audioOk: bool, t0: real, frames: seq<real>)
    returns (shown: seq<Phase>)
    requires e.Valid() && !e.isPlaying && Sorted(frames)
    modifies e, e.audio
    ensures e.Valid() && AllDisposed(e.retired)
    ensures old(e.audio) != null ==> old(e.audio) in e.retired && !Live(old(e.audio).Snapshot())
    ensures e.audio != null <==> audioOk
    ensures e.audio != null ==> fresh(e.audio) && Live(e.audio.Snapshot())
    ensures forall i, j :: 0 <= i <= j < |shown| ==> Before(shown[i], shown[j])
  {
    e.StartExperience(audioOk);
    e.BeginSampling(t0);
    PhasesNondecreasingFromAnyFrame(e.Snapshot(), frames);
    shown := e.Play(frames);
  }
}
