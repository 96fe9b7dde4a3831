/** The start action is asynchronous: it disposes the old controller, then
    waits for the audio context to resume, and only when the wait is over
    installs the new controller and sets `isPlaying`.  Module Driver treats
    the wait as instantaneous.  This module models the wait as two events
    (the click, and the end of the wait) so that other events can come in
    between, and tracks every controller ever built. */
module Reentry {
  import opened Wrappers
  import opened Audio

  /** `graphs` holds the record of every controller built, by creation
      order; `current` is the index `audioRef` points at; `inFlight` counts
      the start actions waiting for their audio context. */
  datatype Launcher = Launcher(
    isPlaying: bool,
    mounted: bool,
    current: Option<nat>,
    graphs: seq<Ctl>,
    inFlight: nat)

  const Mounted: Launcher := Launcher(false, true, None, [], 0)

  /** No controller is live except the one `audioRef` points at. */
  predicate AtMostOneLive(l: Launcher) {
    forall i :: 0 <= i < |l.graphs| && Live(l.graphs[i]) ==> l.current == Some(i)
  }

  /** No controller is live at all. */
  predicate NoneLive(l: Launcher) {
    forall i :: 0 <= i < |l.graphs| ==> !Live(l.graphs[i])
  }

  predicate WellFormed(l: Launcher) {
    l.current.Some? ==> l.current.value < |l.graphs|
  }

  /** `audioRef.current?.dispose()`. */
  function DisposeCurrent(l: Launcher): (r: Launcher)
    requires WellFormed(l)
    ensures WellFormed(r) && |r.graphs| == |l.graphs| && r.current == l.current
    ensures NoneLive(l) ==> NoneLive(r)
    ensures AtMostOneLive(l) ==> NoneLive(r)
  {
    if l.current.None? then l
    else l.(graphs := l.graphs[l.current.value := Disposed(l.graphs[l.current.value])])
  }

  // ---------------------------------------------------------------------
  // As written (app/page.tsx:268-282 and 215-221).

  /** The click: the part of `startExperience` before the wait.  Its only
      guard is `isPlaying`, which is still false while an earlier start is
      waiting. */
  function Click(l: Launcher): Launcher
    requires WellFormed(l)
  {
    if l.isPlaying then l
    else DisposeCurrent(l).(inFlight := l.inFlight + 1)
  }

  /** The end of one wait: the controller is built (or construction
      failed) and installed, and playing starts, whatever happened during
      the wait. */
  function Resume(l: Launcher, audioOk: bool): Launcher
    requires l.inFlight > 0
  {
    l.(graphs := if audioOk then l.graphs + [Fresh] else l.graphs,
       current := if audioOk then Some(|l.graphs|) else None,
       isPlaying := true,
       inFlight := l.inFlight - 1)
  }

  /** The frame that reaches 30 s: fade the current controller out and
      stop playing, which shows the restart button again. */
  function Complete(l: Launcher): Launcher
    requires WellFormed(l)
  {
    if l.current.None? then l.(isPlaying := false)
    else l.(graphs := l.graphs[l.current.value := Faded(l.graphs[l.current.value])],
            isPlaying := false)
  }

  /** The unmount cleanup: dispose the current controller and drop it. */
  function Unmount(l: Launcher): Launcher
    requires WellFormed(l)
  {
    DisposeCurrent(l).(current := None, mounted := false)
  }

  /** Two clicks before the first wait ends: both pass the guard, both
      build a controller, and the first one is overwritten in `audioRef`
      without ever being disposed, so two controllers play at once. */
  lemma DoubleClickLeaks()
    ensures var l := Resume(Resume(Click(Click(Mounted)), true), true);
      && |l.graphs| == 2 && l.current == Some(1)
      && Live(l.graphs[0]) && Live(l.graphs[1])
      && !AtMostOneLive(l)
  {
    var l := Resume(Resume(Click(Click(Mounted)), true), true);
    assert l.graphs == [Fresh, Fresh];
  }

  /** Unmounting during the wait: the cleanup has already run when the new
      controller is installed, so it is never disposed. */
  lemma UnmountDuringWaitLeaks()
    ensures var l := Resume(Unmount(Click(Mounted)), true);
      && !l.mounted && |l.graphs| == 1 && Live(l.graphs[0])
  {
  }

  // ---------------------------------------------------------------------
  // Corrected: a second click is ignored while a start is waiting, and a
  // controller that arrives after unmounting is disposed at once.

  function ClickGuarded(l: Launcher): Launcher
    requires WellFormed(l)
  {
    if l.isPlaying || l.inFlight > 0 then l
    else DisposeCurrent(l).(inFlight := l.inFlight + 1)
  }

  function ResumeGuarded(l: Launcher, audioOk: bool): Launcher
    requires l.inFlight > 0
  {
    if l.mounted then Resume(l, audioOk)
    else
      l.(graphs := if audioOk then l.graphs + [Disposed(Fresh)] else l.graphs,
         current := None,
         inFlight := l.inFlight - 1)
  }

  /** The invariant of the corrected handlers: at most one start waits,
      no controller is live while it waits or after unmounting, and
      otherwise only the current one may be. */
  predicate Safe(l: Launcher) {
    && WellFormed(l)
    && l.inFlight <= 1
    && AtMostOneLive(l)
    && (l.inFlight > 0 || !l.mounted ==> NoneLive(l))
  }

  lemma MountedSafe()
    ensures Safe(Mounted)
  {
  }

  /** Whatever order clicks, waits ending and unmounting come in, the
      corrected handlers keep at most one live controller, and none once
      the component is gone. */
  lemma ClickGuardedSafe(l: Launcher)
    requires Safe(l)
    ensures Safe(ClickGuarded(l))
  {
  }

  lemma {:induction false} ResumeGuardedSafe(l: Launcher, audioOk: bool)
    requires Safe(l) && l.inFlight > 0
    ensures Safe(ResumeGuarded(l, audioOk))
  {
    var r := ResumeGuarded(l, audioOk);
    assert forall i :: 0 <= i < |l.graphs| ==> r.graphs[i] == l.graphs[i];
  }

  lemma UnmountSafe(l: Launcher)
    requires Safe(l)
    ensures Safe(Unmount(l))
  {
  }

  lemma CompleteSafe(l: Launcher)
    requires Safe(l)
    ensures Safe(Complete(l))
  {
  }

  /** An event reaching the launcher: a click on the start button, the end
      of the oldest pending wait with its construction outcome, the run
      completing, or the component unmounting. */
  datatype Event = ClickEvent | ResumeEvent(audioOk: bool) | CompleteEvent | UnmountEvent

  /** The corrected launcher's response to one event; the end of a wait
      can only arrive while one is pending. */
  function HandleGuarded(l: Launcher, e: Event): Launcher
    requires WellFormed(l)
  {
    match e
    case ClickEvent => ClickGuarded(l)
    case ResumeEvent(ok) => if l.inFlight > 0 then ResumeGuarded(l, ok) else l
    case CompleteEvent => if l.isPlaying && l.mounted then Complete(l) else l
    case UnmountEvent => Unmount(l)
  }

  function ReplayGuarded(l: Launcher, es: seq<Event>): Launcher
    requires Safe(l)
    decreases |es|
  {
    if es == [] then l
    else
      SafeStep(l, es[0]);
      ReplayGuarded(HandleGuarded(l, es[0]), es[1..])
  }

  lemma SafeStep(l: Launcher, e: Event)
    requires Safe(l)
    ensures Safe(HandleGuarded(l, e))
  {
    match e
    case ClickEvent => ClickGuardedSafe(l);
    case ResumeEvent(ok) => if l.inFlight > 0 { ResumeGuardedSafe(l, ok); }
    case CompleteEvent => if l.isPlaying && l.mounted { CompleteSafe(l); }
    case UnmountEvent => UnmountSafe(l);
  }

  /** Any sequence of events from a safe state (a freshly mounted
      component, say) leaves at most one live controller, and none once
      the component has unmounted. */
  lemma {:induction false} ReplayGuardedSafe(l: Launcher, es: seq<Event>)
    requires Safe(l)
    ensures Safe(ReplayGuarded(l, es))
    ensures AtMostOneLive(ReplayGuarded(l, es))
    ensures !ReplayGuarded(l, es).mounted ==> NoneLive(ReplayGuarded(l, es))
    decreases |es|
  {
    if es != [] {
      SafeStep(l, es[0]);
      ReplayGuardedSafe(HandleGuarded(l, es[0]), es[1..]);
    }
  }

  /** With no start waiting, the corrected click is the written one: the
      guard only matters when a second click comes in during the wait, so
      the instantaneous start of module Driver is the corrected behaviour. */
  lemma GuardAgreesWhenIdle(l: Launcher, audioOk: bool)
    requires WellFormed(l) && l.inFlight == 0 && l.mounted
    ensures ClickGuarded(l) == Click(l)
    ensures !l.isPlaying ==> ResumeGuarded(ClickGuarded(l), audioOk) == Resume(Click(l), audioOk)
  {
  }
}
