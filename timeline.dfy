/** The fixed 30-second cue sheet: the five ordered phases, the thresholds
    that separate them, and the hint text shown for each. */
module Timeline {

  /** Length of one run, in seconds. */
  const TotalDuration: real := 30.0

  /** Elapsed time at which the jump-scare begins, in seconds. */
  const ClimaxStart: real := 27.0

  datatype Phase = Intro | Reveal | Escalation | Climax | After

  /** Position of a phase in the narrative order
      Intro < Reveal < Escalation < Climax < After. */
  function Rank(p: Phase): (n: nat)
    ensures n < 5
  {
    match p
    case Intro => 0
    case Reveal => 1
    case Escalation => 2
    case Climax => 3
    case After => 4
  }

  predicate Before(p: Phase, q: Phase) {
    Rank(p) <= Rank(q)
  }

  /** The phase for a given elapsed time: thresholds are checked from the
      top down, so a time equal to a threshold falls in the later phase. */
  function DeterminePhase(time: real): (p: Phase)
    ensures p == Intro <==> time < 10.0
    ensures p == Reveal <==> 10.0 <= time < 20.0
    ensures p == Escalation <==> 20.0 <= time < ClimaxStart
    ensures p == Climax <==> ClimaxStart <= time < TotalDuration
    ensures p == After <==> TotalDuration <= time
  {
    if time >= TotalDuration then After
    else if time >= ClimaxStart then Climax
    else if time >= 20.0 then Escalation
    else if time >= 10.0 then Reveal
    else Intro
  }

  /** Later times never give an earlier phase. */
  lemma PhaseMonotone(t1: real, t2: real)
    requires t1 <= t2
    ensures Before(DeterminePhase(t1), DeterminePhase(t2))
  {
  }

  /** The lowest time of each phase: the threshold itself belongs to it. */
  function PhaseStart(p: Phase): real {
    match p
    case Intro => 0.0
    case Reveal => 10.0
    case Escalation => 20.0
    case Climax => ClimaxStart
    case After => TotalDuration
  }

  /** Every threshold resolves to the higher phase, and the instant just
      below it still to the lower one. */
  lemma ThresholdsResolveUpward(p: Phase, eps: real)
    requires 0.0 < eps <= 1.0
    ensures DeterminePhase(PhaseStart(p)) == p
    ensures p != Intro ==> Rank(DeterminePhase(PhaseStart(p) - eps)) + 1 == Rank(p)
  {
  }

  /** The hint text displayed for each phase (a fixed table). */
  function TextCue(p: Phase): (cue: string)
    ensures |cue| > 0
  {
    match p
    case Intro => "is it you... staring back?"
    case Reveal => "no, it blinks when you don't"
    case Escalation => "it's learning your face"
    case Climax => "it's inside the glass"
    case After => "it remembers you now"
  }

  /** Each phase has a hint of its own. */
  lemma CuesDistinct(p: Phase, q: Phase)
    requires p != q
    ensures TextCue(p) != TextCue(q)
  {
  }
}
