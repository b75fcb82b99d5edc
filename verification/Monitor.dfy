/**
 The generations of the browser-session monitor in internal/server/settings.go.  Starting
 and stopping each hold the lock only while they change the two shared fields; the old
 monitor is cancelled and the new one launched afterwards, so other callers interleave.
 A monitor's context is named by the generation it was started under.
 */
module Monitor {
  import opened Text

  // The two fields guarded by the lock.
  datatype Shared = Shared(generation: nat, cancel: Option<nat>)

  function Started(s: Shared): Shared {
    Shared(s.generation + 1, Some(s.generation + 1))
  }

  function Stopped(s: Shared): Shared {
    Shared(s.generation + 1, None)
  }

  // What an exiting monitor of generation g leaves behind.
  function Left(s: Shared, g: nat): Shared {
    if s.generation == g then s.(cancel := None) else s
  }

  /** wbSessionMonitor and the sections that hold its lock. */
  class SessionMonitor {
    var generation: nat
    var cancel: Option<nat>

    function Value(): Shared
      reads this
    {
      Shared(generation, cancel)
    }

    constructor ()
      ensures Value() == Shared(0, None)
    {
      generation, cancel := 0, None;
    }

    /** The locked section of startWBSessionMonitor. */
    method Start() returns (previous: Option<nat>, own: nat)
      modifies this
      ensures Value() == Started(old(Value()))
      ensures previous == old(cancel) && own == generation && cancel == Some(own)
    {
      previous := cancel;
      generation := generation + 1;
      own := generation;
      cancel := Some(own);
    }

    /** The locked section of stopWBSessionMonitor. */
    method Stop() returns (previous: Option<nat>)
      modifies this
      ensures Value() == Stopped(old(Value()))
      ensures previous == old(cancel)
    {
      generation := generation + 1;
      previous := cancel;
      cancel := None;
    }

    /** The locked section a monitor runs when it exits. */
    method Leave(own: nat) returns (current: bool)
      modifies this
      ensures Value() == Left(old(Value()), own)
      ensures current <==> old(generation) == own
    {
      current := generation == own;
      if current {
        cancel := None;
      }
    }

    /** wbSessionMonitorRunning */
    method Running() returns (running: bool)
      ensures running <==> cancel.Some?
    {
      running := cancel.Some?;
    }
  }

  // ---------- interleavings ----------

  // A caller past the lock: the context it still has to cancel, and the monitor it launches then.
  datatype Caller = Cancelling(target: Option<nat>, launch: Option<nat>) | Launching(own: nat)

  datatype State = State(
    shared: Shared,
    callers: map<nat, Caller>,
    started: set<nat>,      // generations some start call took
    launched: set<nat>,     // whose monitor runs or ran
    exited: set<nat>,       // whose monitor passed its exit section
    cancelled: set<nat>)    // whose context is cancelled

  const FRESH := State(Shared(0, None), map[], {}, {}, {}, {})

  datatype Step =
    | StartLocked(thread: nat)
    | StopLocked(thread: nat)
    | Cancel(thread: nat)
    | Launch(thread: nat)
    | Exit(generation: nat)

  // The monitor of g is running: it was launched and has not passed its exit section.
  predicate Alive(s: State, g: nat) {
    g in s.launched && g !in s.exited
  }

  function AfterCancel(s: State, thread: nat): State
    requires thread in s.callers && s.callers[thread].Cancelling?
  {
    var caller := s.callers[thread];
    s.(cancelled := if caller.target.Some? then s.cancelled + {caller.target.value} else s.cancelled,
       callers := if caller.launch.Some? then s.callers[thread := Launching(caller.launch.value)]
           else s.callers - {thread})
  }

  // A step that is not enabled changes nothing.
  function Next(s: State, step: Step): State {
    match step
    case StartLocked(thread) =>
      if thread in s.callers then s else
      var next := Started(s.shared);
      s.(shared := next, started := s.started + {next.generation},
         callers := s.callers[thread := Cancelling(s.shared.cancel, Some(next.generation))])
    case StopLocked(thread) =>
      if thread in s.callers then s else
      s.(shared := Stopped(s.shared), callers := s.callers[thread := Cancelling(s.shared.cancel, None)])
    case Cancel(thread) =>
      if thread !in s.callers || !s.callers[thread].Cancelling? then s else AfterCancel(s, thread)
    case Launch(thread) =>
      if thread !in s.callers || !s.callers[thread].Launching? then s else
      s.(launched := s.launched + {s.callers[thread].own}, callers := s.callers - {thread})
    case Exit(g) =>
      if !Alive(s, g) then s else s.(shared := Left(s.shared, g), exited := s.exited + {g})
  }

  function Run(s: State, steps: seq<Step>): State {
    if steps == [] then s else Next(Run(s, steps[..|steps| - 1]), steps[|steps| - 1])
  }

  // Some caller past the lock is about to cancel g.
  ghost predicate AboutToCancel(s: State, g: nat) {
    exists thread :: thread in s.callers && s.callers[thread].Cancelling? && s.callers[thread].target == Some(g)
  }

  // The monitor of g that caller `thread` will launch.
  predicate Launches(s: State, thread: nat, g: nat) {
    thread in s.callers
    && (s.callers[thread] == Launching(g) || (s.callers[thread].Cancelling? && s.callers[thread].launch == Some(g)))
  }

  // Generations are taken once, and a monitor runs only for a start call.
  ghost predicate Bookkeeping(s: State) {
    && (forall g :: g in s.started ==> 1 <= g <= s.shared.generation)
    && s.launched <= s.started && s.exited <= s.launched
    && (forall thread, g :: Launches(s, thread, g) ==> g in s.started && g !in s.launched)
    && (forall a, b, g :: Launches(s, a, g) && Launches(s, b, g) ==> a == b)
  }

  // The cancel function is set exactly while the monitor of the current generation has not exited.
  predicate CancelIsCurrent(s: State) {
    var g := s.shared.generation;
    s.shared.cancel == if g in s.started && g !in s.exited then Some(g) else None
  }

  // Only older contexts are cancelled or are going to be.
  ghost predicate CurrentIsSafe(s: State) {
    forall g: nat :: g in s.cancelled || AboutToCancel(s, g) ==> g < s.shared.generation
  }

  // Every older monitor that is not through its exit section is cancelled or about to be.
  ghost predicate OlderIsCancelled(s: State) {
    forall g :: g in s.started && g < s.shared.generation && g !in s.exited ==> g in s.cancelled || AboutToCancel(s, g)
  }

  ghost predicate Inv(s: State) {
    Bookkeeping(s) && CancelIsCurrent(s) && CurrentIsSafe(s) && OlderIsCancelled(s)
  }

  lemma LockedKeepsInv(s: State, step: Step)
    requires Inv(s) && (step.StartLocked? || step.StopLocked?)
    ensures Inv(Next(s, step))
  {
    var t := Next(s, step);
    if step.thread !in s.callers {
      forall g: nat ensures AboutToCancel(t, g) <==> AboutToCancel(s, g) || s.shared.cancel == Some(g) {
        if AboutToCancel(s, g) {
          var thread :| thread in s.callers && s.callers[thread].Cancelling? && s.callers[thread].target == Some(g);
          assert t.callers[thread] == s.callers[thread];
        }
        if s.shared.cancel == Some(g) {
          assert t.callers[step.thread].target == Some(g);
        }
      }
      forall thread, g | Launches(t, thread, g)
        ensures if thread == step.thread then g == t.shared.generation && step.StartLocked? else Launches(s, thread, g)
      {}
    }
  }

  lemma CancelKeepsInv(s: State, thread: nat)
    requires Inv(s) && thread in s.callers && s.callers[thread].Cancelling?
    ensures Inv(Next(s, Cancel(thread)))
  {
    var t := Next(s, Cancel(thread));
    var target := s.callers[thread].target;
    assert target.Some? ==> AboutToCancel(s, target.value);
    forall g: nat ensures AboutToCancel(t, g) ==> AboutToCancel(s, g)
      ensures AboutToCancel(s, g) ==> AboutToCancel(t, g) || target == Some(g)
    {
      if AboutToCancel(s, g) && target != Some(g) {
        var other :| other in s.callers && s.callers[other].Cancelling? && s.callers[other].target == Some(g);
        assert other != thread && t.callers[other] == s.callers[other];
      }
    }
    assert forall a, g :: Launches(t, a, g) ==> Launches(s, a, g);
  }

  lemma LaunchKeepsInv(s: State, thread: nat)
    requires Inv(s) && thread in s.callers && s.callers[thread].Launching?
    ensures Inv(Next(s, Launch(thread)))
  {
    var t := Next(s, Launch(thread));
    var own := s.callers[thread].own;
    assert Launches(s, thread, own);
    forall g: nat ensures AboutToCancel(t, g) <==> AboutToCancel(s, g) {
      if AboutToCancel(s, g) {
        var other :| other in s.callers && s.callers[other].Cancelling? && s.callers[other].target == Some(g);
        assert t.callers[other] == s.callers[other];
      }
    }
    assert forall a, g :: Launches(t, a, g) ==> Launches(s, a, g) && a != thread;
  }

  lemma NextKeepsInv(s: State, step: Step)
    requires Inv(s)
    ensures Inv(Next(s, step))
  {
    hide Bookkeeping, CancelIsCurrent, CurrentIsSafe, OlderIsCancelled;
    match step
    case StartLocked(_) => LockedKeepsInv(s, step);
    case StopLocked(_) => LockedKeepsInv(s, step);
    case Cancel(thread) =>
      if thread in s.callers && s.callers[thread].Cancelling? {
        CancelKeepsInv(s, thread);
      }
    case Launch(thread) =>
      if thread in s.callers && s.callers[thread].Launching? {
        LaunchKeepsInv(s, thread);
      }
    case Exit(g) => ExitKeepsInv(s, g);
  }

  lemma ExitKeepsInv(s: State, g: nat)
    requires Inv(s)
    ensures Inv(Next(s, Exit(g)))
  {
    var t := Next(s, Exit(g));
    assert t.callers == s.callers;
    assert forall h :: AboutToCancel(t, h) <==> AboutToCancel(s, h);
    assert forall a, h :: Launches(t, a, h) <==> Launches(s, a, h);
  }

  /** The invariant holds in every interleaving of starts, stops and monitor exits. */
  lemma {:induction false} RunKeepsInv(steps: seq<Step>)
    ensures Inv(Run(FRESH, steps))
  {
    hide Inv, Next;
    if steps == [] {
      assert Inv(FRESH) by { FreshInv(); }
    } else {
      RunKeepsInv(steps[..|steps| - 1]);
      NextKeepsInv(Run(FRESH, steps[..|steps| - 1]), steps[|steps| - 1]);
    }
  }

  lemma FreshInv()
    ensures Inv(FRESH)
  {}

  /**
   A cancel function that is set belongs to the monitor of the current generation, which has
   not exited and which nobody has cancelled or is about to; and it is set for as long as
   that monitor has not exited, so the running flag is exact.
   */
  lemma {:induction false} CancelBelongsToCurrent(steps: seq<Step>)
    ensures var s := Run(FRESH, steps);
            && (s.shared.cancel.Some? <==> s.shared.generation in s.started && s.shared.generation !in s.exited)
            && (s.shared.cancel.Some? ==>
                  (s.shared.cancel.value == s.shared.generation
                   && s.shared.generation !in s.cancelled && !AboutToCancel(s, s.shared.generation)))
  {
    RunKeepsInv(steps);
  }

  /** At most one running monitor is neither cancelled nor about to be: the current one. */
  lemma {:induction false} OneUncancelledMonitor(steps: seq<Step>, g: nat)
    requires var s := Run(FRESH, steps); Alive(s, g) && g !in s.cancelled && !AboutToCancel(s, g)
    ensures var s := Run(FRESH, steps); g == s.shared.generation && s.shared.cancel == Some(g)
  {
    RunKeepsInv(steps);
  }

  /** Once every caller is through, every running monitor but the current one is cancelled. */
  lemma {:induction false} QuietMeansCancelled(steps: seq<Step>, g: nat)
    requires var s := Run(FRESH, steps); s.callers == map[] && Alive(s, g) && s.shared.cancel != Some(g)
    ensures g in Run(FRESH, steps).cancelled
  {
    RunKeepsInv(steps);
  }

  // No caller takes the lock, and the monitor of g does not exit.
  predicate LeavesAlone(steps: seq<Step>, g: nat) {
    forall i :: 0 <= i < |steps| ==> !steps[i].StartLocked? && !steps[i].StopLocked? && steps[i] != Exit(g)
  }

  /** Exits of older monitors, cancellations and launches never clear or replace a cancel function. */
  lemma {:induction false} StaleExits(s: State, steps: seq<Step>, g: nat)
    requires s.shared == Shared(g, Some(g)) && LeavesAlone(steps, g)
    ensures Run(s, steps).shared == s.shared
  {
    if steps != [] {
      StaleExits(s, steps[..|steps| - 1], g);
    }
  }

  /** The monitor that a start launched loses its cancel function only to a later call or to its own exit. */
  lemma {:induction false} NewestKeepsItsCancel(before: seq<Step>, thread: nat, steps: seq<Step>)
    requires thread !in Run(FRESH, before).callers
    requires LeavesAlone(steps, Run(FRESH, before).shared.generation + 1)
    ensures var s := Run(Next(Run(FRESH, before), StartLocked(thread)), steps);
            s.shared.cancel == Some(Run(FRESH, before).shared.generation + 1)
  {
    var s := Run(FRESH, before);
    StaleExits(Next(s, StartLocked(thread)), steps, s.shared.generation + 1);
  }
}
