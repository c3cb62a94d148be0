/** Reachable situations that show why the lifecycle theorems except what they except. */
module LifecycleWitness {
  import opened Wrappers
  import opened LifecycleMachine

  lemma Extend(trace: seq<State>, steps: seq<Step>, step: Step) returns (trace': seq<State>, steps': seq<Step>)
    requires Execution(trace, steps) && Enabled(trace[|steps|], step)
    ensures Execution(trace', steps') && steps' == steps + [step]
    ensures trace' == trace + [Next(trace[|steps|], step)]
  {
    hide Next, Enabled;
    steps' := steps + [step];
    trace' := trace + [Next(trace[|steps|], step)];
  }

  /** Thread `t` acts and gets from `here` to `there`. */
  lemma Go(trace: seq<State>, steps: seq<Step>, t: nat, choice: nat, there: State)
    returns (trace': seq<State>, steps': seq<Step>)
    requires Execution(trace, steps) && Enabled(trace[|steps|], Act(t, choice))
    requires Next(trace[|steps|], Act(t, choice)) == there
    ensures Execution(trace', steps') && |steps'| == |steps| + 1 && trace'[|steps'|] == there
  {
    hide Next, Enabled;
    trace', steps' := Extend(trace, steps, Act(t, choice));
  }

  const IDLE := Memory(false, false, 0, 0, None, false, None, None, [], false, false)

  /** Thread 0 has drawn generation 1. */
  const DRAWN := State(IDLE.(desired := true, lock := Some(0), generation := 1, active := 1),
      [Start(ByRun, Announce, 1)])

  lemma DrawnIsReachable() returns (trace: seq<State>, steps: seq<Step>)
    ensures Execution(trace, steps) && trace[|steps|] == DRAWN
  {
    trace, steps := [INIT], [];
    trace, steps := Extend(trace, steps, Arrive(RunCore));
    var m := IDLE;
    trace, steps := Go(trace, steps, 0, 0, State(m.(desired := true), [Run(RunWait)]));
    m := m.(desired := true, lock := Some(0));
    trace, steps := Go(trace, steps, 0, 0, State(m, [Start(ByRun, Generate, 0)]));
    trace, steps := Go(trace, steps, 0, 1, State(m, [Start(ByRun, Unready, 0)]));
    trace, steps := Go(trace, steps, 0, 0, State(m, [Start(ByRun, DrawGeneration, 0)]));
    trace, steps := Go(trace, steps, 0, 0, DRAWN);
  }

  /** Thread 0 starts core 1 in sidecar mode and is about to store readiness; thread 1 watches the child. */
  const RAISING := State(Memory(true, false, 1, 1, Some(1), false, Some(0), None, [], false, false),
                         [Start(ByRun, MarkReady, 1), Term(Alive, 1)])

  lemma RaisingIsReachable() returns (trace: seq<State>, steps: seq<Step>)
    ensures Execution(trace, steps) && trace[|steps|] == RAISING
  {
    trace, steps := DrawnIsReachable();
    var m := DRAWN.memory;
    trace, steps := Go(trace, steps, 0, 1, State(m, [Start(ByRun, KillOld, 1)]));
    trace, steps := Go(trace, steps, 0, 0, State(m, [Start(ByRun, ChooseMode, 1)]));
    trace, steps := Go(trace, steps, 0, 0, State(m, [Start(ByRun, Prepare, 1)]));
    trace, steps := Go(trace, steps, 0, 1, State(m, [Start(ByRun, SpawnChild, 1)]));
    trace, steps := Go(trace, steps, 0, 1, State(m, [Start(ByRun, Adopt, 1)]));
    m := m.(sidecar := Some(1));
    trace, steps := Go(trace, steps, 0, 0, State(m, [Start(ByRun, WatchChild, 1)]));
    trace, steps := Go(trace, steps, 0, 0, State(m, [Start(ByRun, AwaitReady, 1), Term(Alive, 1)]));
    trace, steps := Go(trace, steps, 0, 1, State(m, [Start(ByRun, Confirm, 1), Term(Alive, 1)]));
    trace, steps := Go(trace, steps, 0, 0, RAISING);
  }

  /** The child's death was handled, and a recovery loop started, before thread 0 stored readiness. */
  const HANDLED :=
    State(RAISING.memory.(active := 0, retired := [1], sidecar := None, slot := Some(2)),
          [Start(ByRun, MarkReady, 1), Done, Loop(Top)])

  lemma HandledIsReachable() returns (trace: seq<State>, steps: seq<Step>)
    ensures Execution(trace, steps) && trace[|steps|] == HANDLED
  {
    trace, steps := RaisingIsReachable();
    var at := Start(ByRun, MarkReady, 1);
    trace, steps := Go(trace, steps, 1, 0, State(RAISING.memory, [at, Term(TermRetire, 1)]));
    var m := RAISING.memory.(active := 0, retired := [1]);
    trace, steps := Go(trace, steps, 1, 0, State(m, [at, Term(TermTake, 1)]));
    m := m.(sidecar := None);
    trace, steps := Go(trace, steps, 1, 0, State(m, [at, Term(TermUnready, 1)]));
    trace, steps := Go(trace, steps, 1, 0, State(m, [at, Term(TermDesired, 1)]));
    trace, steps := Go(trace, steps, 1, 0, State(m, [at, Term(TermSchedule, 1)]));
    trace, steps := Go(trace, steps, 1, 0, HANDLED);
  }

  /**
   The child dies between the check of the active generation and the store of readiness: in the end every thread
   is done, the core should run, is called ready, is dead, and nobody recovers it.
   */
  lemma DeadCoreCanBeCalledReady() returns (trace: seq<State>, steps: seq<Step>)
    ensures Execution(trace, steps)
    ensures var s := trace[|steps|];
      && (forall t :: 0 <= t < |s.threads| ==> s.threads[t].Done?)
      && s.memory.desired && s.memory.ready && s.memory.active == 0 && s.memory.sidecar.None?
      && s.memory.slot.None? && s.memory.stale && !s.memory.abandoned
  {
    trace, steps := HandledIsReachable();
    var m := HANDLED.memory;
    m := m.(ready := true, stale := true);
    trace, steps := Go(trace, steps, 0, 0, State(m, [Release(End), Done, Loop(Top)]));
    m := m.(lock := None);
    trace, steps := Go(trace, steps, 0, 0, State(m, [Done, Done, Loop(Top)]));
    trace, steps := Go(trace, steps, 2, 0, State(m, [Done, Done, Loop(TopReady)]));
    trace, steps := Go(trace, steps, 2, 0, State(m, [Done, Done, Loop(ClearSlot)]));
    m := m.(slot := None);
    trace, steps := Go(trace, steps, 2, 0, State(m, [Done, Done, Loop(Tail)]));
    trace, steps := Go(trace, steps, 2, 0, State(m, [Done, Done, Loop(TailReady)]));
    trace, steps := Go(trace, steps, 2, 0, State(m, [Done, Done, Done]));
  }

  /** Core 1 is up. */
  const UP := State(RAISING.memory.(ready := true, lock := None), [Done, Term(Alive, 1)])

  lemma UpIsReachable() returns (trace: seq<State>, steps: seq<Step>)
    ensures Execution(trace, steps) && trace[|steps|] == UP
  {
    trace, steps := RaisingIsReachable();
    trace, steps := Go(trace, steps, 0, 0, State(RAISING.memory.(ready := true), [Release(End), Term(Alive, 1)]));
    trace, steps := Go(trace, steps, 0, 0, UP);
  }

  /** Thread 2 has drawn generation 2, while the handler of core 1, accepted before, has still to write. */
  const REDRAWN :=
    State(UP.memory.(active := 2, retired := [1], lock := Some(2), ready := false, generation := 2),
          [Done, Term(TermTake, 1), Start(ByRun, Announce, 2)])

  lemma RedrawnIsReachable() returns (trace: seq<State>, steps: seq<Step>)
    ensures Execution(trace, steps) && trace[|steps|] == REDRAWN
  {
    trace, steps := UpIsReachable();
    var late := Term(TermTake, 1);
    trace, steps := Go(trace, steps, 1, 0, State(UP.memory, [Done, Term(TermRetire, 1)]));
    var m := UP.memory.(active := 0, retired := [1]);
    trace, steps := Go(trace, steps, 1, 0, State(m, [Done, late]));
    trace, steps := Extend(trace, steps, Arrive(RunCore));
    trace, steps := Go(trace, steps, 2, 0, State(m, [Done, late, Run(RunWait)]));
    m := m.(lock := Some(2));
    trace, steps := Go(trace, steps, 2, 0, State(m, [Done, late, Start(ByRun, Generate, 0)]));
    trace, steps := Go(trace, steps, 2, 1, State(m, [Done, late, Start(ByRun, Unready, 0)]));
    trace, steps := Go(trace, steps, 2, 0, State(m.(ready := false), [Done, late, Start(ByRun, DrawGeneration, 0)]));
    trace, steps := Go(trace, steps, 2, 0, REDRAWN);
  }

  /** Its child is running, and adopted. */
  const ADOPTED :=
    State(REDRAWN.memory.(sidecar := Some(2)), [Done, Term(TermTake, 1), Start(ByRun, WatchChild, 2)])

  lemma AdoptedIsReachable() returns (trace: seq<State>, steps: seq<Step>)
    ensures Execution(trace, steps) && trace[|steps|] == ADOPTED
  {
    trace, steps := RedrawnIsReachable();
    var late := Term(TermTake, 1);
    trace, steps := Go(trace, steps, 2, 1, State(REDRAWN.memory, [Done, late, Start(ByRun, KillOld, 2)]));
    var m := REDRAWN.memory.(sidecar := None);
    trace, steps := Go(trace, steps, 2, 0, State(m, [Done, late, Start(ByRun, ChooseMode, 2)]));
    trace, steps := Go(trace, steps, 2, 0, State(m, [Done, late, Start(ByRun, Prepare, 2)]));
    trace, steps := Go(trace, steps, 2, 1, State(m, [Done, late, Start(ByRun, SpawnChild, 2)]));
    trace, steps := Go(trace, steps, 2, 1, State(m, [Done, late, Start(ByRun, Adopt, 2)]));
    trace, steps := Go(trace, steps, 2, 0, ADOPTED);
  }

  /** Core 2 is up, while the handler of core 1, accepted before core 2 was started, has still to write. */
  const OVERTAKEN :=
    State(Memory(true, true, 2, 2, Some(2), false, None, None, [1], false, false),
          [Done, Term(TermTake, 1), Done, Term(Alive, 2)])

  lemma OvertakenIsReachable() returns (trace: seq<State>, steps: seq<Step>)
    ensures Execution(trace, steps) && trace[|steps|] == OVERTAKEN
  {
    trace, steps := AdoptedIsReachable();
    var late := Term(TermTake, 1);
    var m := ADOPTED.memory;
    trace, steps := Go(trace, steps, 2, 0, State(m, [Done, late, Start(ByRun, AwaitReady, 2), Term(Alive, 2)]));
    trace, steps := Go(trace, steps, 2, 1, State(m, [Done, late, Start(ByRun, Confirm, 2), Term(Alive, 2)]));
    trace, steps := Go(trace, steps, 2, 0, State(m, [Done, late, Start(ByRun, MarkReady, 2), Term(Alive, 2)]));
    m := m.(ready := true);
    trace, steps := Go(trace, steps, 2, 0, State(m, [Done, late, Release(End), Term(Alive, 2)]));
    trace, steps := Go(trace, steps, 2, 0, OVERTAKEN);
  }

  /** The event of core 1 then drops the running child of core 2 and lowers its readiness. */
  lemma LateEventHitsNewerCore() returns (trace: seq<State>, steps: seq<Step>)
    ensures Execution(trace, steps)
    ensures var s := trace[|steps|];
      && s.memory.active == 2 && s.memory.sidecar.None? && !s.memory.ready && s.memory.retired == [1]
      && s.threads == [Done, Term(TermDesired, 1), Done, Term(Alive, 2)]
  {
    trace, steps := OvertakenIsReachable();
    var m := OVERTAKEN.memory.(sidecar := None);
    trace, steps := Go(trace, steps, 1, 0, State(m, [Done, Term(TermUnready, 1), Done, Term(Alive, 2)]));
    trace, steps := Go(trace, steps, 1, 0, State(m.(ready := false),
        [Done, Term(TermDesired, 1), Done, Term(Alive, 2)]));
  }

  const SAVED := Saved(true, true, 1, false)

  /** The download failed after files were replaced; the upgrade begins to roll back. */
  const ROLLING := State(UP.memory.(lock := Some(2), desired := false),
                         [Done, Term(Alive, 1), Upgrade(RollbackDesired, SAVED, false, true)])

  lemma RollingIsReachable() returns (trace: seq<State>, steps: seq<Step>)
    ensures Execution(trace, steps) && trace[|steps|] == ROLLING
  {
    trace, steps := UpIsReachable();
    trace, steps := Extend(trace, steps, Arrive(UpgradeCore));
    var watch := Term(Alive, 1);
    var m := UP.memory.(lock := Some(2));
    trace, steps := Go(trace, steps, 2, 0, State(m, [Done, watch, Upgrade(UpgradeCheck, NOTHING_SAVED, false, false)]));
    trace, steps := Go(trace, steps, 2, 1, State(m, [Done, watch, Upgrade(SwapDesired, NOTHING_SAVED, false, false)]));
    m := m.(desired := false);
    var saved := Saved(true, false, 0, false);
    trace, steps := Go(trace, steps, 2, 0, State(m, [Done, watch, Upgrade(SaveReady, saved, false, false)]));
    saved := Saved(true, true, 0, false);
    trace, steps := Go(trace, steps, 2, 0, State(m, [Done, watch, Upgrade(SaveActive, saved, false, false)]));
    saved := Saved(true, true, 1, false);
    trace, steps := Go(trace, steps, 2, 0, State(m, [Done, watch, Upgrade(SaveMode, saved, false, false)]));
    trace, steps := Go(trace, steps, 2, 0, State(m, [Done, watch, Upgrade(Download, saved, false, false)]));
    trace, steps := Go(trace, steps, 2, 1, ROLLING);
  }

  /** The previous executable is back, and the upgrade is about to start it. */
  const RESTARTING := State(ROLLING.memory.(active := 0, ready := false, sidecar := None, desired := true),
                            [Done, Term(Alive, 1), Start(ByUpgrade(SAVED, true), Generate, 0)])

  lemma RestartingIsReachable() returns (trace: seq<State>, steps: seq<Step>)
    ensures Execution(trace, steps) && trace[|steps|] == RESTARTING
  {
    trace, steps := RollingIsReachable();
    var watch := Term(Alive, 1);
    var m := ROLLING.memory;
    trace, steps := Go(trace, steps, 2, 0, State(m, [Done, watch, Upgrade(SelfActive, SAVED, false, true)]));
    m := m.(active := 0);
    trace, steps := Go(trace, steps, 2, 0, State(m, [Done, watch, Upgrade(SelfReady, SAVED, false, true)]));
    m := m.(ready := false);
    trace, steps := Go(trace, steps, 2, 0, State(m, [Done, watch, Upgrade(SelfTake, SAVED, false, true)]));
    m := m.(sidecar := None);
    trace, steps := Go(trace, steps, 2, 0, State(m, [Done, watch, Upgrade(RollbackFiles, SAVED, false, true)]));
    trace, steps := Go(trace, steps, 2, 1, State(m, [Done, watch, Upgrade(ActivateCheck, SAVED, false, true)]));
    trace, steps := Go(trace, steps, 2, 1, State(m, [Done, watch, Upgrade(ActivateDesired, SAVED, false, true)]));
    trace, steps := Go(trace, steps, 2, 0, RESTARTING);
  }

  /**
   An upgrade that fails after replacing files, and whose restored core does not start either, leaves nobody to
   recover.
   */
  lemma FailedRollbackLosesRecovery() returns (trace: seq<State>, steps: seq<Step>)
    ensures Execution(trace, steps)
    ensures var s := trace[|steps|];
      && s.memory.desired && !s.memory.ready && s.memory.slot.None? && s.memory.abandoned
      && s.threads == [Done, Term(Alive, 1), Done]
  {
    trace, steps := RestartingIsReachable();
    var watch := Term(Alive, 1);
    var m := RESTARTING.memory;
    trace, steps := Go(trace, steps, 2, 0, State(m, [Done, watch, Upgrade(Abandon, SAVED, false, true)]));
    m := m.(abandoned := true);
    trace, steps := Go(trace, steps, 2, 0, State(m, [Done, watch, Release(End)]));
    trace, steps := Go(trace, steps, 2, 0, State(m.(lock := None), [Done, watch, Done]));
  }
}
