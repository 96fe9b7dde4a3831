/** The audio controller seen from the playback driver: an opaque handle
    with three operations.  The synthesis graph behind it is not modelled;
    the controller records the calls it receives and the automation it
    schedules in response, and keeps the `hasJump` flag that makes the
    climax burst fire at most once per controller. */
module Audio {

  /** A call the driver makes on a controller. */
  datatype Call = TriggerCall | FadeCall | DisposeCall

  /** Automation a controller schedules on its graph:
      the jump-scare burst (sawtooth sweep and scream), the two-second
      ramp of the master gain to silence, and the forced stop of the
      continuous sources together with the cleanup of pending creaks. */
  datatype Cue = Burst | FadeMaster | StopSources

  /** Value of a controller: its guard flag, the calls received and the
      cues scheduled, oldest first. */
  datatype Ctl = Ctl(hasJump: bool, calls: seq<Call>, cues: seq<Cue>)

  /** A controller as construction returns it. */
  const Fresh: Ctl := Ctl(false, [], [])

  function Bursts(c: Ctl): nat {
    multiset(c.cues)[Burst]
  }

  /** The guard is consistent with the cues: the burst was scheduled
      once if the flag is set and never otherwise. */
  predicate Sound(c: Ctl) {
    Bursts(c) == if c.hasJump then 1 else 0
  }

  /** A controller that has not been disposed. */
  predicate Live(c: Ctl) {
    DisposeCall !in c.calls
  }

  /** `triggerClimax`: a no-op on the graph once `hasJump` is set;
      otherwise sets it and schedules the burst. */
  function Triggered(c: Ctl): Ctl {
    if c.hasJump then c.(calls := c.calls + [TriggerCall])
    else Ctl(true, c.calls + [TriggerCall], c.cues + [Burst])
  }

  /** `fadeOut`: ramps the master gain to silence. */
  function Faded(c: Ctl): Ctl {
    Ctl(c.hasJump, c.calls + [FadeCall], c.cues + [FadeMaster])
  }

  /** `dispose`: stops the sources and cleans up the creaks, then fades
      out through the same path as `fadeOut`. */
  function Disposed(c: Ctl): Ctl {
    Ctl(c.hasJump, c.calls + [DisposeCall], c.cues + [StopSources, FadeMaster])
  }

  /** The controller after receiving one call. */
  function Receive(c: Ctl, op: Call): Ctl {
    match op
    case TriggerCall => Triggered(c)
    case FadeCall => Faded(c)
    case DisposeCall => Disposed(c)
  }

  /** Each operation records its call and keeps the guard consistent with
      the cues: only `triggerClimax` sets the guard, it schedules the burst
      only when the guard was clear, only `dispose` ends the controller's
      life, and `fadeOut` touches neither the guard nor the burst. */
  lemma ReceiveKeepsSound(c: Ctl, op: Call)
    requires Sound(c)
    ensures Sound(Receive(c, op))
    ensures Receive(c, op).calls == c.calls + [op]
    ensures Receive(c, op).hasJump <==> c.hasJump || op == TriggerCall
    ensures Bursts(Receive(c, op)) == Bursts(c) + (if op == TriggerCall && !c.hasJump then 1 else 0)
    ensures Live(Receive(c, op)) <==> Live(c) && op != DisposeCall
  {
  }

  /** The controller after receiving `ops` in order. */
  function Apply(c: Ctl, ops: seq<Call>): Ctl
    decreases |ops|
  {
    if ops == [] then c else Apply(Receive(c, ops[0]), ops[1..])
  }

  /** A second `triggerClimax` changes nothing but the call record. */
  lemma TriggerIdempotent(c: Ctl)
    ensures Triggered(Triggered(c)).hasJump == Triggered(c).hasJump
    ensures Triggered(Triggered(c)).cues == Triggered(c).cues
  {
  }

  /** Whatever the driver calls, and in whatever order, a controller
      records exactly those calls, keeps its guard consistent with its cues,
      and ends up with the guard set exactly when it was set before or one
      of the calls was `triggerClimax`. */
  lemma {:induction false} BurstAtMostOnce(c: Ctl, ops: seq<Call>)
    requires Sound(c)
    ensures Sound(Apply(c, ops))
    ensures Apply(c, ops).calls == c.calls + ops
    ensures Apply(c, ops).hasJump <==> c.hasJump || TriggerCall in ops
    decreases |ops|
  {
    if ops != [] {
      var d := Receive(c, ops[0]);
      ReceiveKeepsSound(c, ops[0]);
      BurstAtMostOnce(d, ops[1..]);
      calc {
        Apply(c, ops).calls;
        d.calls + ops[1..];
        (c.calls + [ops[0]]) + ops[1..];
        { assert ops == [ops[0]] + ops[1..]; }
        c.calls + ops;
      }
      assert TriggerCall in ops <==> ops[0] == TriggerCall || TriggerCall in ops[1..] by {
        assert ops == [ops[0]] + ops[1..];
      }
    }
  }

  /** Corollary for a controller fresh from construction. */
  lemma FreshBurstCount(ops: seq<Call>)
    ensures Bursts(Apply(Fresh, ops)) == if TriggerCall in ops then 1 else 0
  {
    BurstAtMostOnce(Fresh, ops);
  }

  /** The handle the driver holds: one object per constructed graph. */
  class AudioController {
    var hasJump: bool
    var calls: seq<Call>
    var cues: seq<Cue>

    function Snapshot(): Ctl
      reads this
    {
      Ctl(hasJump, calls, cues)
    }

    constructor ()
      ensures Snapshot() == Fresh
    {
      hasJump, calls, cues := false, [], [];
    }

    method TriggerClimax()
      modifies this
      ensures Snapshot() == Triggered(old(Snapshot()))
    {
      calls := calls + [TriggerCall];
      if hasJump {
        return;
      }
      hasJump := true;
      cues := cues + [Burst];
    }

    method FadeOut()
      modifies this
      ensures Snapshot() == Faded(old(Snapshot()))
    {
      calls := calls + [FadeCall];
      cues := cues + [FadeMaster];
    }

    method Dispose()
      modifies this
      ensures Snapshot() == Disposed(old(Snapshot()))
    {
      calls := calls + [DisposeCall];
      cues := cues + [StopSources];
      cues := cues + [FadeMaster];
    }
  }
}
